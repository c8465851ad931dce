/**
 The VIP and ingress-port allocators.

 Both controllers have one shape: scan the existing allocations in name order,
 keep the first sound holder of each address, release the rest, then give
 every wanted name that is left the first address nobody was seen holding.
 They differ in what an address is, which addresses suit a spec, and where a
 free one is looked for; `Pool` carries those differences.
 */
module Allocator {
  import opened Store
  import opened Order

  // ---------------------------------------------------------------- VIP addresses

  // 10.44.64.0/18 as numbers
  const VIP_BASE: int := 0x0A2C_4000
  const VIP_SIZE: int := 0x4000
  const USABLE_VIPS: nat := 16256

  predicate InVipPool(ip: int) {
    VIP_BASE <= ip < VIP_BASE + VIP_SIZE
  }

  /** An address a service may get: in the pool, its last byte neither 0 nor 255. */
  predicate UsableVip(ip: int) {
    InVipPool(ip) && ip % 256 != 0 && ip % 256 != 255
  }

  /** The lowest usable address nobody reserved. */
  method FirstFreeVip(used: set<int>) returns (r: Option<int>)
    ensures r.Some? ==> UsableVip(r.value) && r.value !in used
    ensures r.Some? ==> forall ip | UsableVip(ip) && ip < r.value :: ip in used
    ensures r.None? <==> forall ip | UsableVip(ip) :: ip in used
  {
    var ip := VIP_BASE + 1;
    while InVipPool(ip)
      invariant VIP_BASE < ip <= VIP_BASE + VIP_SIZE
      invariant forall j | UsableVip(j) && j < ip :: j in used
      decreases VIP_BASE + VIP_SIZE - ip
    {
      if !(ip % 256 == 0 || ip % 256 == 255 || ip in used) {
        return Some(ip);
      }
      ip := ip + 1;
    }
    return None;
  }

  function UsableBelow(n: nat): (s: set<int>)
    ensures forall ip :: ip in s <==> VIP_BASE <= ip < VIP_BASE + n && ip % 256 != 0 && ip % 256 != 255
  {
    if n == 0 then {} else
      var ip := VIP_BASE + n - 1;
      if ip % 256 == 0 || ip % 256 == 255 then UsableBelow(n - 1) else UsableBelow(n - 1) + {ip}
  }

  lemma Mod256(c: int, r: int)
    requires 0 <= r < 256
    ensures (256 * c + r) % 256 == r
  {}

  lemma BlockResidue(k: nat, m: nat)
    requires 1 <= m <= 256
    ensures (VIP_BASE + (256 * k + m) - 1) % 256 == m - 1
  {
    assert VIP_BASE + (256 * k + m) - 1 == 256 * (0xA_2C40 + k) + (m - 1);
    Mod256(0xA_2C40 + k, m - 1);
  }

  function UsableCount(k: nat, m: nat): nat
    requires m <= 256
  {
    254 * k + (if m == 0 then 0 else if m == 256 then 254 else m - 1)
  }

  lemma {:induction false} UsableInBlock(k: nat, m: nat)
    requires m <= 256
    ensures |UsableBelow(256 * k + m)| == UsableCount(k, m)
    decreases k, m
  {
    hide UsableBelow;
    if m > 0 {
      UsableInBlock(k, m - 1);
      BlockResidue(k, m);
      NextUsable(256 * k + m, m - 1);
      assert 256 * k + m - 1 == 256 * k + (m - 1);
    } else if k > 0 {
      UsableInBlock(k - 1, 256);
      assert 256 * (k - 1) + 256 == 256 * k + m;
    } else {
      UsableNone();
    }
  }

  lemma UsableNone()
    ensures UsableBelow(0) == {}
  {}

  lemma NextUsable(n: nat, r: int)
    requires n > 0 && (VIP_BASE + n - 1) % 256 == r
    ensures |UsableBelow(n)| == |UsableBelow(n - 1)| + if r == 0 || r == 255 then 0 else 1
  {
    assert VIP_BASE + n - 1 !in UsableBelow(n - 1);
  }

  /** The pool has 16,256 addresses to give. */
  lemma UsableVipCount()
    ensures |UsableBelow(VIP_SIZE)| == USABLE_VIPS
    ensures forall ip :: ip in UsableBelow(VIP_SIZE) <==> UsableVip(ip)
  {
    UsableInBlock(64, 0);
  }

  /** A pool is exhausted only once as many addresses are reserved as it has. */
  lemma VipFree(used: set<int>)
    requires |used| < USABLE_VIPS
    ensures exists ip :: UsableVip(ip) && ip !in used
  {
    UsableVipCount();
    if forall ip | UsableVip(ip) :: ip in used {
      SubsetSize(UsableBelow(VIP_SIZE), used);
    }
  }

  lemma SubsetSize(a: set<int>, b: set<int>)
    requires a <= b
    ensures |a| <= |b|
  {
    assert b == a + (b - a);
  }

  // ---------------------------------------------------------------- ingress ports

  const PORTS_PER_NODE: int := 32

  /** Go's int32 arithmetic. */
  function Wrap32(x: int): int {
    (x + 0x8000_0000) % 0x1_0000_0000 - 0x8000_0000
  }

  /** The allocator's slice, first port included and last excluded, computed in int32. */
  function NodeRange(base: int, index: int): (r: Option<(int, int)>)
    ensures r.Some? ==> 1 <= r.value.0 && r.value.1 <= 65536
  {
    if index < 1 then None else
      var lo := Wrap32(base + Wrap32(PORTS_PER_NODE * Wrap32(index - 1)));
      var hi := Wrap32(lo + PORTS_PER_NODE);
      if lo < 1 || hi > 65536 then None else Some((lo, hi))
  }

  /** The slice the agent publishes, in 64-bit ints; None is its empty slice. */
  function PublishedRange(base: int, per: int, index: int): Option<(int, int)> {
    if base <= 0 || per <= 0 || index < 1 then None else
      var lo := base + per * (index - 1);
      if lo + per > 65536 then None else Some((lo, lo + per))
  }

  /** It lies above a positive base, `per` ports to each index, and within the port space. */
  lemma PublishedMeans(base: int, per: int, index: int, lo: int, hi: int)
    ensures PublishedRange(base, per, index) == Some((lo, hi)) <==>
        base > 0 && per > 0 && index > 0 && hi <= 65536 && lo == base + per * (index - 1) && hi == lo + per
  {}

  const MAX_INT32: int := 0x7FFF_FFFF

  lemma WrapSmall(x: int)
    requires -0x8000_0000 <= x <= MAX_INT32
    ensures Wrap32(x) == x
  {}

  predicate Int32(x: int) {
    -0x8000_0000 <= x <= MAX_INT32
  }

  /** Where the slice starts once int32 arithmetic has wrapped. */
  function SliceStart(base: int, index: int): (lo: int)
    ensures Int32(lo)
  {
    Wrap32(base + 32 * (index - 1))
  }

  lemma WrapResidue(x: int)
    ensures Int32(Wrap32(x)) && (Wrap32(x) - x) % 0x1_0000_0000 == 0
  {
    var q := (x + 0x8000_0000) / 0x1_0000_0000;
    assert Wrap32(x) - x == 0x1_0000_0000 * -q;
    MultipleMod(-q);
  }

  lemma MultipleMod(q: int)
    ensures (0x1_0000_0000 * q) % 0x1_0000_0000 == 0
  {}

  lemma WrapSame(x: int, y: int)
    ensures Wrap32(x) == Wrap32(y) <==> (x - y) % 0x1_0000_0000 == 0
  {}

  /** The intermediate wraps do not matter: the slice is what one wrap of the exact start gives. */
  lemma NodeRangeIs(base: int, index: int)
    requires 1 <= index <= MAX_INT32
    ensures var lo := SliceStart(base, index);
            NodeRange(base, index) == if lo < 1 || 65536 < lo + 32 <= MAX_INT32 then None
                                      else Some((lo, if lo + 32 <= MAX_INT32 then lo + 32 else lo + 32 - 0x1_0000_0000))
  {
    hide SliceStart;
    var x, y := base + Wrap32(32 * (index - 1)), base + 32 * (index - 1);
    WrapSmall(index - 1);
    WrapResidue(32 * (index - 1));
    WrapSame(x, y);
    StartIs(base, index);
  }

  lemma NoIndexNoRange(base: int, index: int)
    requires index < 1
    ensures NodeRange(base, index) == None
  {}

  lemma StartIs(base: int, index: int)
    ensures SliceStart(base, index) == Wrap32(base + 32 * (index - 1)) && Int32(SliceStart(base, index))
  {}

  /** Exactly when the allocator's slice is the one the agent publishes, for every base and index the wire can carry. */
  lemma RangesAgree(base: int, index: int)
    requires Int32(base) && Int32(index)
    ensures NodeRange(base, index) == PublishedRange(base, PORTS_PER_NODE, index) <==>
        var lo := SliceStart(base, index);
        index < 1 || (1 <= base && base + 32 * index <= 65536) || lo < 1 || 65536 < lo + 32 <= MAX_INT32
  {
    hide NodeRange, SliceStart, Wrap32;
    if index < 1 {
      NoIndexNoRange(base, index);
    } else {
      NodeRangeIs(base, index);
      StartIs(base, index);
      if 1 <= base && base + 32 * index <= 65536 {
        WrapSmall(base + 32 * (index - 1));
      }
    }
  }

  /** In particular they agree for every positive base as long as the slice's end fits an int32. */
  lemma RangesAgreeBelow(base: int, index: int)
    requires 1 <= base && 1 <= index && base + 32 * index <= MAX_INT32
    ensures NodeRange(base, index) == PublishedRange(base, PORTS_PER_NODE, index)
    ensures NodeRange(base, index)
         == if base + 32 * index <= 65536 then Some((base + 32 * (index - 1), base + 32 * index)) else None
  {
    hide Wrap32, NodeRange, SliceStart;
    RangesAgree(base, index);
    NodeRangeIs(base, index);
    StartIs(base, index);
    WrapSmall(base + 32 * (index - 1));
  }

  /**
   Where they part ways the allocator can mint ports nobody publishes: an index
   2^27 above another lands on that node's slice, and a base below one climbs
   back above it at a higher index.
   */
  lemma RangesDisagree()
    ensures NodeRange(20000, 0x800_0001) == NodeRange(20000, 1) == Some((20000, 20032))
    ensures PublishedRange(20000, PORTS_PER_NODE, 0x800_0001) == None
    ensures NodeRange(-31, 2) == Some((1, 33)) && PublishedRange(-31, PORTS_PER_NODE, 2) == None
  {
    hide NodeRange;
    FarIndex();
    NearIndex();
    LowBase();
  }

  lemma FarIndex()
    ensures NodeRange(20000, 0x800_0001) == Some((20000, 20032))
  {}

  lemma NearIndex()
    ensures NodeRange(20000, 1) == Some((20000, 20032))
  {}

  lemma LowBase()
    ensures NodeRange(-31, 2) == Some((1, 33))
  {}

  predicate InSlice(base: int, index: int, port: int) {
    var r := NodeRange(base, index);
    r.Some? && r.value.0 <= port < r.value.1
  }

  /** Ports of two nodes' slices meet exactly when the indices are 2^27 apart, or a multiple of it. */
  lemma SlicesMeet(base: int, i: int, j: int)
    requires 1 <= i <= MAX_INT32 && 1 <= j <= MAX_INT32
    ensures (exists p :: InSlice(base, i, p) && InSlice(base, j, p)) <==>
        (i - j) % 0x800_0000 == 0 && exists p :: InSlice(base, i, p)
  {
    NodeRangeIs(base, i);
    NodeRangeIs(base, j);
    SliceGap(base, i, j);
    if p :| InSlice(base, i, p) && InSlice(base, j, p) {
      assert -32 < SliceStart(base, i) - SliceStart(base, j) < 32;
    }
    if (i - j) % 0x800_0000 == 0 && exists p :: InSlice(base, i, p) {
      var p :| InSlice(base, i, p);
      assert InSlice(base, j, p);
    }
  }

  /** Starts of two slices differ by a multiple of 32, and coincide exactly for indices 2^27 apart. */
  lemma SliceGap(base: int, i: int, j: int)
    ensures (SliceStart(base, i) - SliceStart(base, j)) % 32 == 0
    ensures SliceStart(base, i) == SliceStart(base, j) <==> (i - j) % 0x800_0000 == 0
  {
    hide SliceStart, Wrap32;
    StartIs(base, i);
    StartIs(base, j);
    var x, y := base + 32 * (i - 1), base + 32 * (j - 1);
    WrapSame(x, y);
    assert x - y == 32 * (i - j);
    Residue32(i - j);
    Times32(i - j);
    WrapGap(x, y);
  }

  lemma Residue32(d: int)
    ensures (32 * d) % 0x1_0000_0000 == 0 <==> d % 0x800_0000 == 0
  {}

  lemma WrapGap(x: int, y: int)
    requires (x - y) % 32 == 0
    ensures (Wrap32(x) - Wrap32(y)) % 32 == 0
  {
    var q, r, d := (x + 0x8000_0000) / 0x1_0000_0000, (y + 0x8000_0000) / 0x1_0000_0000, (x - y) / 32;
    WrapQuotient(x);
    WrapQuotient(y);
    hide Wrap32;
    assert x - y == 32 * d;
    assert Wrap32(x) - Wrap32(y) == 32 * (d - 0x800_0000 * (q - r));
    Times32(d - 0x800_0000 * (q - r));
  }

  lemma WrapQuotient(x: int)
    ensures Wrap32(x) == x - 0x1_0000_0000 * ((x + 0x8000_0000) / 0x1_0000_0000)
  {}

  lemma Times32(e: int)
    ensures (32 * e) % 32 == 0
  {}

  /** Slices of indices not a multiple of 2^27 apart lie one after the other. */
  lemma RangesDisjoint(base: int, i: int, j: int)
    requires 1 <= i <= MAX_INT32 && 1 <= j <= MAX_INT32 && (i - j) % 0x800_0000 != 0
    requires NodeRange(base, i).Some? && NodeRange(base, j).Some?
    ensures NodeRange(base, i).value.1 <= NodeRange(base, j).value.0
         || NodeRange(base, j).value.1 <= NodeRange(base, i).value.0
  {
    hide NodeRange, SliceStart;
    NodeRangeIs(base, i);
    NodeRangeIs(base, j);
    SliceGap(base, i, j);
  }

  method FirstFreePort(lo: int, hi: int, used: set<int>) returns (r: Option<int>)
    ensures r.Some? ==> lo <= r.value < hi && r.value !in used && forall p | lo <= p < r.value :: p in used
    ensures r.None? <==> forall p | lo <= p < hi :: p in used
  {
    var p := lo;
    while p < hi
      invariant lo <= p && (p <= hi || p == lo)
      invariant forall q | lo <= q < p :: q in used
    {
      if p !in used {
        return Some(p);
      }
      p := p + 1;
    }
    return None;
  }

  // ---------------------------------------------------------------- allocations

  /** A stored allocation; `addr` is None for a VIP string that does not parse. */
  datatype Alloc = Alloc(service: string, owner: string, node: string, addr: Option<int>)

  type Allocs = map<string, Version<Alloc>>

  /** What a name should hold: VIPs are per (service, node), ingress ports per (service, instance) on its node. */
  datatype Spec = Spec(service: string, owner: string, node: string)

  datatype Pool = Vip | Ingress(base: int, index: map<string, int>)

  function Slice(pool: Pool, node: string): Option<(int, int)> {
    match pool
    case Vip => None
    case Ingress(base, index) => NodeRange(base, if node in index then index[node] else 0)
  }

  /** Whether the address lies where the pool lets this allocation's node have one. */
  predicate InRange(pool: Pool, a: Alloc) {
    && a.addr.Some?
    && match pool
       case Vip => InVipPool(a.addr.value)
       case Ingress(_, _) =>
         var slice := Slice(pool, a.node);
         slice.Some? && slice.value.0 <= a.addr.value < slice.value.1
  }

  /** Ingress only: the spec now wants the name on a node other than the one it was allocated for. */
  predicate Moved(pool: Pool, spec: Spec, a: Alloc) {
    pool.Ingress? && spec.node != a.node
  }

  predicate Sound(pool: Pool, spec: Spec, a: Alloc) {
    !Moved(pool, spec, a) && InRange(pool, a)
  }

  /** Addresses seen on any allocation, doomed or not, are off the table for this pass. */
  predicate Reserves(pool: Pool, a: Alloc) {
    a.addr.Some? && (pool.Ingress? ==> a.addr.value > 0)
  }

  function Reserved(pool: Pool, objs: Allocs, names: set<string>): set<int>
    requires names <= objs.Keys
  {
    set n | n in names && Reserves(pool, objs[n].value) :: objs[n].value.addr.value
  }

  function Before(objs: Allocs, n: string): set<string> {
    set m | m in objs && Less(m, n)
  }

  /** The allocation keeps its address: wanted, sound, and the first by name to hold it. */
  predicate Survives(pool: Pool, want: map<string, Spec>, objs: Allocs, n: string) {
    && n in objs && n in want && Sound(pool, want[n], objs[n].value)
    && objs[n].value.addr.value !in Reserved(pool, objs, Before(objs, n))
  }

  function Survivors(pool: Pool, want: map<string, Spec>, objs: Allocs): set<string> {
    set n | n in objs && Survives(pool, want, objs, n)
  }

  /** Every stored allocation is wanted and sound, with no address held twice. */
  ghost predicate Clean(pool: Pool, want: map<string, Spec>, objs: Allocs) {
    && (forall n | n in objs :: n in want && Sound(pool, want[n], objs[n].value))
    && (forall m, n | m in objs && n in objs && m != n :: objs[m].value.addr != objs[n].value.addr)
  }

  /** The allocator's fixpoint: clean, and nothing wanted is missing. */
  ghost predicate Repaired(pool: Pool, want: map<string, Spec>, objs: Allocs) {
    Clean(pool, want, objs) && objs.Keys == want.Keys
  }

  lemma RangeReserves(pool: Pool, a: Alloc)
    requires InRange(pool, a)
    ensures Reserves(pool, a)
  {}

  /** What survives the scan is clean. */
  lemma SurvivorsClean(pool: Pool, want: map<string, Spec>, objs: Allocs, rest: Allocs)
    requires rest == map n | n in Survivors(pool, want, objs) :: objs[n]
    ensures Clean(pool, want, rest) && AddressesIn(rest, Reserved(pool, objs, objs.Keys))
    ensures rest.Keys == Survivors(pool, want, objs)
  {
    forall m, n | m in rest && n in rest && m != n ensures rest[m].value.addr != rest[n].value.addr {
      LessTotal(m, n);
      RangeReserves(pool, objs[m].value);
      RangeReserves(pool, objs[n].value);
      assert m in Before(objs, n) || n in Before(objs, m);
    }
    forall n | n in rest ensures rest[n].value.addr.value in Reserved(pool, objs, objs.Keys) {
      RangeReserves(pool, objs[n].value);
    }
  }

  /** At the fixpoint everything survives. */
  lemma RepairedSurvives(pool: Pool, want: map<string, Spec>, objs: Allocs)
    requires Repaired(pool, want, objs)
    ensures Survivors(pool, want, objs) == objs.Keys
  {
    forall n | n in objs ensures Survives(pool, want, objs, n) {
      LessTotal(n, n);
      assert forall m | m in Before(objs, n) :: objs[m].value.addr != objs[n].value.addr;
    }
  }

  // ---------------------------------------------------------------- the controller

  type Listing = seq<(string, Version<Alloc>)>

  /** One List answer: every allocation once, in name order. */
  ghost predicate Lists(listed: Listing, objs: Allocs) {
    && (forall i | 0 <= i < |listed| :: listed[i].0 in objs && objs[listed[i].0] == listed[i].1)
    && (forall n | n in objs :: exists i | 0 <= i < |listed| :: listed[i].0 == n)
    && (forall i, j | 0 <= i < j < |listed| :: Less(listed[i].0, listed[j].0))
  }

  function Prefix(listed: Listing, k: nat): set<string>
    requires k <= |listed|
  {
    set i | 0 <= i < k :: listed[i].0
  }

  lemma PrefixIsBefore(listed: Listing, objs: Allocs, k: nat)
    requires Lists(listed, objs) && k < |listed|
    ensures Prefix(listed, k) == Before(objs, listed[k].0)
    ensures Prefix(listed, k + 1) == Prefix(listed, k) + {listed[k].0} && listed[k].0 !in Prefix(listed, k)
  {
    hide Less;
    forall n ensures n in Prefix(listed, k) <==> n in Before(objs, listed[k].0) {
      BeforeListed(listed, objs, k, n);
    }
    LessTotal(listed[k].0, listed[k].0);
  }

  lemma BeforeListed(listed: Listing, objs: Allocs, k: nat, n: string)
    requires Lists(listed, objs) && k < |listed|
    ensures n in Prefix(listed, k) <==> n in Before(objs, listed[k].0)
  {
    hide Less;
    if n in Before(objs, listed[k].0) {
      var i :| 0 <= i < |listed| && listed[i].0 == n;
      LessTotal(n, listed[k].0);
    }
  }

  class Controller {
    const pool: Pool
    var db: Db<string, Alloc>

    constructor (pool: Pool, db: Db<string, Alloc>)
      requires WellFormed(db)
      ensures this.pool == pool && this.db == db
    {
      this.pool, this.db := pool, db;
    }

    method List() returns (listed: Listing)
      ensures Lists(listed, db.objs)
    {
      hide Less;
      var names := SortedKeys(db.objs.Keys);
      listed := [];
      for i := 0 to |names|
        invariant |listed| == i && forall j | 0 <= j < i :: listed[j].0 == names[j]
        invariant forall j | 0 <= j < i :: listed[j].0 in db.objs && db.objs[listed[j].0] == listed[j].1
      {
        assert names[i] in names;
        listed := listed + [(names[i], db.objs[names[i]])];
      }
      forall n | n in db.objs ensures exists i | 0 <= i < |listed| :: listed[i].0 == n {
        assert n in names;
        var i :| 0 <= i < |names| && names[i] == n;
        assert listed[i].0 == n;
      }
    }

    /** Deletes the allocation only at the listed revision. */
    method Release(n: string, rev: nat)
      requires WellFormed(db)
      modifies this`db
      ensures WellFormed(db)
      ensures db == if Pinned(old(db.objs), n, rev) then Deleted(old(db), n) else old(db)
    {
      if Pinned(db.objs, n, rev) {
        db := Deleted(db, n);
      }
    }

    /** Decides one listed allocation: a sound first holder stays and leaves the want list, anything else goes. */
    method ReconcileAllocation(n: string, v: Version<Alloc>, want: map<string, Spec>, used: set<int>)
      returns (want': map<string, Spec>, used': set<int>)
      requires WellFormed(db)
      modifies this`db
      ensures WellFormed(db)
      ensures used' == used + if v.value.addr.Some? && (pool.Ingress? ==> v.value.addr.value > 0)
                              then {v.value.addr.value} else {}
      ensures var keep := n in want && Sound(pool, want[n], v.value) && v.value.addr.value !in used;
              && want' == (if keep then want - {n} else want)
              && db == if !keep && Pinned(old(db.objs), n, v.rev) then Deleted(old(db), n) else old(db)
    {
      var a := v.value;
      var valid := InRange(pool, a);
      var duplicate := valid && a.addr.value in used;
      used' := if Reserves(pool, a) then used + {a.addr.value} else used;
      if n !in want {
        want' := want;
        Release(n, v.rev);
      } else if Moved(pool, want[n], a) || !valid || duplicate {
        want' := want;
        Release(n, v.rev);
      } else {
        want' := want - {n};
      }
    }

    /** The scan: survivors stay, everything else is released, and every seen address is reserved. */
    method Scan(listed: Listing, want: map<string, Spec>) returns (left: map<string, Spec>, used: set<int>)
      requires WellFormed(db) && Lists(listed, db.objs)
      modifies this`db
      ensures WellFormed(db) && db.rev >= old(db.rev)
      ensures var kept := Survivors(pool, want, old(db.objs));
              && left == want - kept
              && db.objs == (map n | n in kept :: old(db.objs)[n])
              && (kept == old(db.objs).Keys ==> db == old(db))
      ensures used == Reserved(pool, old(db.objs), old(db.objs).Keys)
    {
      hide Survives, Reserved, Lists, Prefix, Sound, WellFormed;
      ghost var objs, kept, seen := db.objs, Survivors(pool, want, db.objs), {};
      ScanStart(pool, listed, objs);
      left, used := want, {};
      for k := 0 to |listed|
        invariant WellFormed(db) && db.rev >= old(db.rev) && seen == Prefix(listed, k) && seen <= objs.Keys
        invariant left == want - (seen * kept) && db.objs == objs - (seen - kept)
        invariant kept == objs.Keys ==> db == old(db)
        invariant used == Reserved(pool, objs, seen)
      {
        var n := listed[k].0;
        ScanDecides(pool, want, objs, listed, k);
        ScanStep(pool, want, objs, kept, seen, n);
        left, used := ReconcileAllocation(n, listed[k].1, left, used);
        seen := seen + {n};
      }
      ScanEnd(listed, objs, kept);
    }

    /** The first address the pool can still give this spec. */
    method FirstFree(spec: Spec, used: set<int>) returns (r: Option<int>)
      requires Placeable(pool, spec)
      ensures r.Some? ==> r.value !in used && InRange(pool, Granted(spec, r)) && Lowest(pool, spec, r.value, used)
      ensures r.None? <==> Full(pool, spec, used)
    {
      match pool {
        case Vip =>
          r := FirstFreeVip(used);
        case Ingress(_, _) =>
          var slice := Slice(pool, spec.node).value;
          r := FirstFreePort(slice.0, slice.1, used);
      }
    }

    /** Gives `n` a free address by a create-only write; a slice that vanished since the scan is skipped. */
    method Allocate(n: string, spec: Spec, used: set<int>) returns (ok: bool, granted: Option<int>, used': set<int>)
      requires WellFormed(db)
      modifies this`db
      ensures WellFormed(db)
      ensures granted.None? ==> db == old(db) && (n !in old(db.objs) ==> used' == used)
      ensures granted.Some? ==> n !in old(db.objs) && granted.value !in used && used' == used + {granted.value}
      ensures granted.Some? ==>
          InRange(pool, Granted(spec, granted)) && db == Written(old(db), n, Granted(spec, granted))
      ensures granted.Some? ==> Lowest(pool, spec, granted.value, used)
      ensures !ok <==> Placeable(pool, spec) && Full(pool, spec, used)
      ensures !ok ==> granted.None?
      ensures ok && Placeable(pool, spec) ==> n in db.objs
    {
      granted, used' := None, used;
      if !Placeable(pool, spec) {
        return true, granted, used';
      }
      var r := FirstFree(spec, used);
      if r.None? {
        return false, granted, used';
      }
      ok, used' := true, used + {r.value};
      if n !in db.objs {
        granted := r;
        db := Written(db, n, Granted(spec, r));
      }
    }

    /** Gives every name left over an address, in name order; a name goes without only where no address is left. */
    method Fill(left: map<string, Spec>, want: map<string, Spec>, used0: set<int>) returns (ok: bool)
      requires WellFormed(db) && Clean(pool, want, db.objs) && AddressesIn(db.objs, used0)
      requires left == want - db.objs.Keys
      modifies this`db
      ensures WellFormed(db) && Clean(pool, want, db.objs)
      ensures forall n | n in old(db.objs) :: n in db.objs && db.objs[n] == old(db.objs)[n]
      ensures forall n | n in db.objs && n !in old(db.objs) :: n in want && Minted(db.objs[n], old(db.rev), want[n])
      ensures forall n | n in want && Placeable(pool, want[n]) && n !in db.objs ::
                Full(pool, want[n], used0 + Addresses(db.objs))
      ensures ok <==> forall n | n in want && Placeable(pool, want[n]) :: n in db.objs
      ensures GrantedInOrder(pool, want, old(db.objs), db.objs, used0)
      ensures pool.Vip? && |used0| + |left| <= USABLE_VIPS ==> ok
      ensures left == map[] ==> db == old(db)
    {
      hide *;
      var names := SortedKeys(left.Keys);
      var used := used0;
      ok := true;
      ghost var start, todo := db, left.Keys;
      FillStarts(pool, left, start, used0);
      TailStarts(names, left.Keys);
      OrderedStarts(pool, want, start.objs, used0, left.Keys);
      for k := 0 to |names|
        invariant WellFormed(db) && Clean(pool, want, db.objs) && AddressesIn(db.objs, used)
        invariant todo == Tail(names, k) && Filling(pool, left, start, used0, db, used, todo, ok)
        invariant Ordered(pool, want, start.objs, db.objs, used0, used, todo)
      {
        var n := names[k];
        TailStep(names, left.Keys, k);
        ghost var mid := db;
        FillTodo(pool, left, want, start, used0, db, used, todo, ok, n);
        var fine, granted, used' := Allocate(n, left[n], used);
        AllocatedClean(pool, want, mid, n, left[n], used, used', granted, db);
        OrderedStep(pool, want, start.objs, mid, used0, used, todo, n, granted, db, used');
        FillStep(pool, left, start, used0, mid, used, todo, ok, n, fine, granted, db, used');
        ok, used, todo := ok && fine, used', todo - {n};
      }
      TailEnds(names);
      CleanKeys(pool, want, db.objs);
      FillEnds(pool, left, want, start, used0, db, used, ok);
      OrderedEnds(pool, left, want, start, used0, db, used, ok);
    }

    /**
     One undisturbed pass repairs any starting set: what survives keeps its
     address, everything stored afterwards is wanted, sound and unshared, and a
     wanted name is missing only where the addresses seen and stored leave its
     pool no room. At the fixpoint it writes nothing.
     */
    method Reconcile(want: map<string, Spec>) returns (ok: bool)
      requires WellFormed(db)
      modifies this`db
      ensures WellFormed(db) && Clean(pool, want, db.objs)
      ensures forall n | n in old(db.objs) ::
                Survives(pool, want, old(db.objs), n) <==> n in db.objs && db.objs[n] == old(db.objs)[n]
      ensures forall n | n in db.objs ::
                (n in old(db.objs) && db.objs[n] == old(db.objs)[n])
                || (n in want && Minted(db.objs[n], old(db.rev), want[n]))
      ensures forall n | n in want && Placeable(pool, want[n]) && n !in db.objs ::
                Full(pool, want[n], Reserved(pool, old(db.objs), old(db.objs).Keys) + Addresses(db.objs))
      ensures ok <==> forall n | n in want && Placeable(pool, want[n]) :: n in db.objs
      ensures ok && (forall n | n in want :: Placeable(pool, want[n])) ==> Repaired(pool, want, db.objs)
      ensures GrantedInOrder(pool, want, map n | n in Survivors(pool, want, old(db.objs)) :: old(db.objs)[n], db.objs,
                             Reserved(pool, old(db.objs), old(db.objs).Keys))
      ensures pool.Vip? && |old(db.objs)| + |want - Survivors(pool, want, old(db.objs))| <= USABLE_VIPS ==> ok
      ensures Repaired(pool, want, old(db.objs)) ==> db == old(db)
    {
      hide *;
      ghost var start := db;
      var listed := List();
      var left, used := Scan(listed, want);
      ghost var rest := db;
      SurvivorsClean(pool, want, start.objs, rest.objs);
      ReservedSize(pool, start.objs, start.objs.Keys);
      ok := Fill(left, want, used);
      SurvivorsStay(pool, want, start, rest, db);
      NothingLeft(pool, want, start.objs, left);
      CleanAndComplete(pool, want, db.objs);
    }
  }

  lemma CleanAndComplete(pool: Pool, want: map<string, Spec>, objs: Allocs)
    ensures Clean(pool, want, objs) && (forall n | n in want :: n in objs) ==> Repaired(pool, want, objs)
    ensures Clean(pool, want, objs) && objs.Keys == want.Keys <==> Repaired(pool, want, objs)
  {}

  /** The survivors, and only they, are stored as they were. */
  lemma SurvivorsStay(pool: Pool, want: map<string, Spec>, start: Db<string, Alloc>, rest: Db<string, Alloc>,
                      end: Db<string, Alloc>)
    requires WellFormed(start) && rest.rev >= start.rev
    requires rest.objs == map n | n in Survivors(pool, want, start.objs) :: start.objs[n]
    requires forall n | n in rest.objs :: n in end.objs && end.objs[n] == rest.objs[n]
    requires forall n | n in end.objs && n !in rest.objs :: n in want && Minted(end.objs[n], rest.rev, want[n])
    ensures forall n | n in start.objs ::
              Survives(pool, want, start.objs, n) <==> n in end.objs && end.objs[n] == start.objs[n]
    ensures forall n | n in end.objs ::
              (n in start.objs && end.objs[n] == start.objs[n])
              || (n in want && Minted(end.objs[n], start.rev, want[n]))
  {
    hide Survives;
  }

  lemma NothingLeft(pool: Pool, want: map<string, Spec>, objs: Allocs, left: map<string, Spec>)
    requires left == want - Survivors(pool, want, objs)
    ensures Repaired(pool, want, objs) ==> left == map[] && Survivors(pool, want, objs) == objs.Keys
  {
    if Repaired(pool, want, objs) {
      RepairedSurvives(pool, want, objs);
    }
  }

  /** Whether the pool has addresses for this spec at all: ingress needs an indexed node whose slice fits. */
  predicate Placeable(pool: Pool, spec: Spec) {
    pool.Ingress? ==> Slice(pool, spec.node).Some?
  }

  ghost predicate AddressesIn(objs: Allocs, used: set<int>) {
    forall n | n in objs :: objs[n].value.addr.Some? && objs[n].value.addr.value in used
  }

  function Granted(spec: Spec, addr: Option<int>): Alloc {
    Alloc(spec.service, spec.owner, spec.node, addr)
  }

  /** Written after `rev`, for exactly this spec. */
  predicate Minted(v: Version<Alloc>, rev: nat, spec: Spec) {
    v.rev > rev && v.value == Granted(spec, v.value.addr)
  }

  lemma AllocatedClean(pool: Pool, want: map<string, Spec>, before: Db<string, Alloc>, n: string, spec: Spec,
                       used: set<int>, used': set<int>, granted: Option<int>, after: Db<string, Alloc>)
    requires Clean(pool, want, before.objs) && AddressesIn(before.objs, used) && used <= used'
    requires n in want && want[n] == spec
    requires granted.None? ==> after == before
    requires granted.Some? ==> n !in before.objs && granted.value !in used && granted.value in used'
    requires granted.Some? ==>
        InRange(pool, Granted(spec, granted)) && after == Written(before, n, Granted(spec, granted))
    ensures Clean(pool, want, after.objs) && AddressesIn(after.objs, used')
  {}

  /** No address the pool could give this spec is left. */
  ghost predicate Full(pool: Pool, spec: Spec, used: set<int>) {
    match pool
    case Vip => forall ip | UsableVip(ip) :: ip in used
    case Ingress(_, _) =>
      var slice := Slice(pool, spec.node);
      slice.Some? && forall p | slice.value.0 <= p < slice.value.1 :: p in used
  }

  lemma FullVips(pool: Pool, spec: Spec, used: set<int>)
    requires pool.Vip? && Full(pool, spec, used)
    ensures |used| >= USABLE_VIPS
  {
    if |used| < USABLE_VIPS {
      VipFree(used);
    }
  }

  lemma FullGrows(pool: Pool, spec: Spec, used: set<int>, more: set<int>)
    requires Full(pool, spec, used) && used <= more
    ensures Full(pool, spec, more)
  {}

  function Addresses(objs: Allocs): set<int> {
    set n | n in objs && objs[n].value.addr.Some? :: objs[n].value.addr.value
  }

  // ---------------------------------------------------------------- the fill loop

  /** The names from position `k` on. */
  function Tail(names: seq<string>, k: nat): set<string> {
    set i | k <= i < |names| :: names[i]
  }

  lemma TailStarts(names: seq<string>, keys: set<string>)
    requires Enumerates(names, keys)
    ensures Tail(names, 0) == keys
  {
    forall n | n in keys ensures n in Tail(names, 0) {
      assert n in names;
    }
    forall n | n in Tail(names, 0) ensures n in keys {
      assert n in names;
    }
  }

  lemma TailStep(names: seq<string>, keys: set<string>, k: nat)
    requires Enumerates(names, keys) && k < |names|
    ensures names[k] in Tail(names, k) && Tail(names, k + 1) == Tail(names, k) - {names[k]}
    ensures forall n | n in Tail(names, k + 1) :: Less(names[k], n)
  {
    forall i | k < i < |names| ensures names[i] != names[k] {
      LessTotal(names[k], names[i]);
    }
  }

  lemma TailEnds(names: seq<string>)
    ensures Tail(names, |names|) == {}
  {}

  /** Where the fill loop stands: `start` is untouched in `db`, and the names done are stored or found no room. */
  ghost predicate Filling(pool: Pool, left: map<string, Spec>, start: Db<string, Alloc>, used0: set<int>,
                          db: Db<string, Alloc>, used: set<int>, todo: set<string>, ok: bool)
  {
    && Extends(left, start, db, todo)
    && used <= used0 + Addresses(db.objs)
    && Served(pool, left, db.objs, used, todo, ok)
    && |used| + |todo| <= |used0| + |left|
    && (pool.Vip? && |used0| + |left| <= USABLE_VIPS ==> ok)
    && (left == map[] ==> db == start)
  }

  ghost predicate Extends(left: map<string, Spec>, start: Db<string, Alloc>, db: Db<string, Alloc>, todo: set<string>) {
    && todo <= left.Keys && start.objs.Keys <= db.objs.Keys && todo !! db.objs.Keys && db.rev >= start.rev
    && (forall n | n in start.objs :: db.objs[n] == start.objs[n])
    && (forall n | n in db.objs && n !in start.objs :: n in left && Minted(db.objs[n], start.rev, left[n]))
  }

  ghost predicate Served(pool: Pool, left: map<string, Spec>, objs: Allocs, used: set<int>, todo: set<string>,
                         ok: bool) {
    && (forall n | n in left && n !in todo && Placeable(pool, left[n]) && n !in objs :: Full(pool, left[n], used))
    && (ok <==> forall n | n in left && n !in todo && Placeable(pool, left[n]) :: n in objs)
  }

  lemma FillStarts(pool: Pool, left: map<string, Spec>, start: Db<string, Alloc>, used0: set<int>)
    requires left.Keys !! start.objs.Keys
    ensures Filling(pool, left, start, used0, start, used0, left.Keys, true)
  {}

  lemma FillTodo(pool: Pool, left: map<string, Spec>, want: map<string, Spec>, start: Db<string, Alloc>,
                 used0: set<int>,
                 db: Db<string, Alloc>, used: set<int>, todo: set<string>, ok: bool, n: string)
    requires Filling(pool, left, start, used0, db, used, todo, ok) && n in todo && left == want - start.objs.Keys
    ensures n in left && n in want && left[n] == want[n] && n !in db.objs
  {}

  lemma ServedStep(pool: Pool, left: map<string, Spec>, objs: Allocs, used: set<int>, todo: set<string>, ok: bool,
                   n: string, fine: bool, after: Allocs, used': set<int>)
    requires Served(pool, left, objs, used, todo, ok) && n in todo && n in left && used <= used'
    requires forall m | m != n :: m in after <==> m in objs
    requires !fine <==> Placeable(pool, left[n]) && Full(pool, left[n], used)
    requires !fine ==> n !in after
    requires fine && Placeable(pool, left[n]) ==> n in after
    ensures Served(pool, left, after, used', todo - {n}, ok && fine)
  {
    hide Placeable, Full;
    forall m | m in left && Full(pool, left[m], used) ensures Full(pool, left[m], used') {
      FullGrows(pool, left[m], used, used');
    }
  }

  lemma ExtendsStep(left: map<string, Spec>, start: Db<string, Alloc>, db: Db<string, Alloc>, todo: set<string>,
                    n: string, granted: Option<int>, after: Db<string, Alloc>)
    requires Extends(left, start, db, todo) && n in todo
    requires after == if granted.None? then db else Written(db, n, Granted(left[n], granted))
    ensures Extends(left, start, after, todo - {n})
  {}

  lemma AddressesStep(db: Db<string, Alloc>, n: string, spec: Spec, granted: Option<int>, after: Db<string, Alloc>)
    requires n !in db.objs && after == if granted.None? then db else Written(db, n, Granted(spec, granted))
    ensures Addresses(after.objs) == Addresses(db.objs) + if granted.Some? then {granted.value} else {}
  {
    if granted.Some? {
      assert after.objs[n].value.addr == granted;
      assert forall m | m in db.objs :: after.objs[m] == db.objs[m];
    }
  }

  lemma FillStep(pool: Pool, left: map<string, Spec>, start: Db<string, Alloc>, used0: set<int>,
                 db: Db<string, Alloc>, used: set<int>, todo: set<string>, ok: bool,
                 n: string, fine: bool, granted: Option<int>, after: Db<string, Alloc>, used': set<int>)
    requires Filling(pool, left, start, used0, db, used, todo, ok) && n in todo && n in left && n !in db.objs
    requires after == if granted.None? then db else Written(db, n, Granted(left[n], granted))
    requires used' == if granted.None? then used else used + {granted.value}
    requires !fine <==> Placeable(pool, left[n]) && Full(pool, left[n], used)
    requires fine && Placeable(pool, left[n]) ==> n in after.objs
    requires !fine ==> granted.None?
    ensures Filling(pool, left, start, used0, after, used', todo - {n}, ok && fine)
  {
    hide Placeable, Full, Addresses, Served, Extends;
    ExtendsStep(left, start, db, todo, n, granted, after);
    AddressesStep(db, n, left[n], granted, after);
    ServedStep(pool, left, db.objs, used, todo, ok, n, fine, after.objs, used');
    assert |todo - {n}| == |todo| - 1;
    if pool.Vip? && !fine {
      FullVips(pool, left[n], used);
    }
  }

  lemma FillEnds(pool: Pool, left: map<string, Spec>, want: map<string, Spec>, start: Db<string, Alloc>,
                 used0: set<int>,
                 db: Db<string, Alloc>, used: set<int>, ok: bool)
    requires Filling(pool, left, start, used0, db, used, {}, ok) && left == want - start.objs.Keys
    requires db.objs.Keys <= want.Keys
    ensures forall n | n in start.objs :: n in db.objs && db.objs[n] == start.objs[n]
    ensures forall n | n in db.objs && n !in start.objs :: n in want && Minted(db.objs[n], start.rev, want[n])
    ensures forall n | n in want && Placeable(pool, want[n]) && n !in db.objs ::
              Full(pool, want[n], used0 + Addresses(db.objs))
    ensures ok <==> forall n | n in want && Placeable(pool, want[n]) :: n in db.objs
    ensures pool.Vip? && |used0| + |left| <= USABLE_VIPS ==> ok
    ensures left == map[] ==> db == start
  {
    hide Placeable, Full, Addresses;
    forall n | n in want && Placeable(pool, want[n]) && n !in db.objs
      ensures Full(pool, want[n], used0 + Addresses(db.objs))
    {
      assert n in left;
      FullGrows(pool, want[n], used, used0 + Addresses(db.objs));
    }
  }

  // ---------------------------------------------------------------- which address is granted

  /**
   The addresses a pool has for a spec: those of 10.44.64.0/18 that end in
   neither 0 nor 255, or the ports of its node's slice.
   */
  ghost predicate Offers(pool: Pool, spec: Spec, x: int) {
    match pool
    case Vip => 0x0A2C_4000 <= x <= 0x0A2C_7FFF && 1 <= x % 256 <= 254
    case Ingress(base, index) =>
      spec.node in index && InSlice(base, index[spec.node], x)
  }

  /** Everything offered below the address is taken. */
  ghost predicate Lowest(pool: Pool, spec: Spec, addr: int, used: set<int>) {
    Offers(pool, spec, addr) && forall x | x < addr && Offers(pool, spec, x) :: x in used
  }

  /** A pool is full when all it offers is taken; it is placeable where there is anything to take from. */
  lemma FullMeans(pool: Pool, spec: Spec, used: set<int>)
    ensures Full(pool, spec, used) <==> Placeable(pool, spec) && forall x | Offers(pool, spec, x) :: x in used
    ensures Placeable(pool, spec) <==>
        pool.Vip? || (spec.node in pool.index && NodeRange(pool.base, pool.index[spec.node]).Some?)
  {
    if pool.Ingress? {
      NoIndexNoRange(pool.base, 0);
      hide NodeRange;
      assert Slice(pool, spec.node).Some? ==> spec.node in pool.index;
    }
  }

  /** A new holder of a name, `start` being what survived the scan. */
  ghost predicate New(start: Allocs, objs: Allocs, n: string) {
    n in objs && n !in start && objs[n].value.addr.Some?
  }

  /** Of two new holders the earlier name has the lower address wherever it could have had the other's. */
  ghost predicate Rising(pool: Pool, want: map<string, Spec>, start: Allocs, objs: Allocs) {
    forall n, m | n in want && New(start, objs, n) && New(start, objs, m) && Less(n, m)
                  && Offers(pool, want[n], objs[m].value.addr.value) ::
      objs[n].value.addr.value < objs[m].value.addr.value
  }

  /** Each new address is the lowest its pool has beside `used`. */
  ghost predicate AllLowest(pool: Pool, want: map<string, Spec>, start: Allocs, objs: Allocs, used: set<int>) {
    forall n | n in want && New(start, objs, n) :: Lowest(pool, want[n], objs[n].value.addr.value, used)
  }

  /** New holders are wanted, and avoid every address the scan saw. */
  ghost predicate AllFresh(want: map<string, Spec>, start: Allocs, objs: Allocs, seen: set<int>) {
    forall n | n in objs && n !in start :: n in want && New(start, objs, n) && objs[n].value.addr.value !in seen
  }

  ghost predicate GrantedInOrder(pool: Pool, want: map<string, Spec>, start: Allocs, objs: Allocs, seen: set<int>) {
    && AllFresh(want, start, objs, seen) && AllLowest(pool, want, start, objs, seen + Addresses(objs))
    && Rising(pool, want, start, objs)
  }

  /** The same while the loop runs: what is left to do comes after what is done. */
  ghost predicate Ordered(pool: Pool, want: map<string, Spec>, start: Allocs, objs: Allocs, seen: set<int>,
                          used: set<int>, todo: set<string>) {
    && seen <= used && (forall n, m | New(start, objs, n) && m in todo :: Less(n, m))
    && AllFresh(want, start, objs, seen) && AllLowest(pool, want, start, objs, used) && Rising(pool, want, start, objs)
  }

  lemma OrderedStarts(pool: Pool, want: map<string, Spec>, start: Allocs, seen: set<int>, todo: set<string>)
    ensures Ordered(pool, want, start, start, seen, seen, todo)
  {}

  lemma OrderedStep(pool: Pool, want: map<string, Spec>, start: Allocs, before: Db<string, Alloc>, seen: set<int>,
                    used: set<int>, todo: set<string>, n: string, granted: Option<int>, after: Db<string, Alloc>,
                    used': set<int>)
    requires Ordered(pool, want, start, before.objs, seen, used, todo) && AddressesIn(before.objs, used)
    requires n in want && n in todo && n !in before.objs && forall m | m in todo && m != n :: Less(n, m)
    requires granted.None? ==> after == before && used' == used
    requires granted.Some? ==> granted.value !in used && used' == used + {granted.value}
    requires granted.Some? ==>
        Lowest(pool, want[n], granted.value, used) && after == Written(before, n, Granted(want[n], granted))
    ensures Ordered(pool, want, start, after.objs, seen, used', todo - {n})
  {
    hide AllLowest, Rising, AddressesIn, Lowest, Less;
    if granted.Some? {
      RisingStep(pool, want, start, before.objs, used, todo, n, granted.value, after.objs);
      LowestStep(pool, want, start, before.objs, used, n, granted.value, after.objs);
    }
  }

  lemma RisingStep(pool: Pool, want: map<string, Spec>, start: Allocs, before: Allocs, used: set<int>,
                   todo: set<string>, n: string, addr: int, after: Allocs)
    requires Rising(pool, want, start, before) && AllLowest(pool, want, start, before, used)
    requires AddressesIn(before, used) && addr !in used && n in todo
    requires forall m | New(start, before, m) :: m in want && Less(m, n)
    requires n in want && n !in before && n in after && after[n].value == Granted(want[n], Some(addr))
    requires forall m | m != n :: m in after <==> m in before
    requires forall m | m in before :: after[m] == before[m]
    ensures Rising(pool, want, start, after)
  {
    hide Offers, Less;
    LessTotal(n, n);
    forall m | New(start, before, m)
      ensures !Less(n, m) && (Offers(pool, want[m], addr) ==> before[m].value.addr.value < addr)
    {
      LessTotal(m, n);
    }
    hide AllLowest, AddressesIn;
  }

  lemma LowestStep(pool: Pool, want: map<string, Spec>, start: Allocs, before: Allocs, used: set<int>, n: string,
                   addr: int, after: Allocs)
    requires AllLowest(pool, want, start, before, used) && n in want && Lowest(pool, want[n], addr, used)
    requires n in want && n !in before && n in after && after[n].value == Granted(want[n], Some(addr))
    requires forall m | m != n :: m in after <==> m in before
    requires forall m | m in before :: after[m] == before[m]
    ensures AllLowest(pool, want, start, after, used + {addr})
  {
    hide Offers;
  }

  lemma OrderedEnds(pool: Pool, left: map<string, Spec>, want: map<string, Spec>, start: Db<string, Alloc>,
                    seen: set<int>, db: Db<string, Alloc>, used: set<int>, ok: bool)
    requires Ordered(pool, want, start.objs, db.objs, seen, used, {})
    requires Filling(pool, left, start, seen, db, used, {}, ok)
    ensures GrantedInOrder(pool, want, start.objs, db.objs, seen)
  {
    hide Offers, Rising, AllFresh, Served, Extends, Addresses;
  }

  // ---------------------------------------------------------------- what survives, on stored fields

  /** A VIP keeps its place when its service is wanted on its node and no earlier name holds the same address. */
  lemma VipSurvives(want: map<string, Spec>, objs: Allocs, n: string)
    ensures Survives(Vip, want, objs, n) <==>
        && n in objs && n in want && objs[n].value.addr.Some?
        && 0x0A2C_4000 <= objs[n].value.addr.value <= 0x0A2C_7FFF
        && forall m | m in objs && Less(m, n) :: objs[m].value.addr != objs[n].value.addr
  {
    if n in objs && objs[n].value.addr.Some? {
      EarlierHolder(Vip, objs, n);
    }
    hide Less;
  }

  /** A port: the instance still runs on the node it was allocated for, and the port is in that node's slice. */
  lemma PortSurvives(base: int, index: map<string, int>, want: map<string, Spec>, objs: Allocs, n: string)
    ensures Survives(Ingress(base, index), want, objs, n) <==>
        && n in objs && n in want && objs[n].value.addr.Some? && want[n].node == objs[n].value.node
        && Offers(Ingress(base, index), want[n], objs[n].value.addr.value)
        && forall m | m in objs && Less(m, n) :: objs[m].value.addr != objs[n].value.addr
  {
    var pool := Ingress(base, index);
    NoIndexNoRange(base, 0);
    if n in objs && n in want && objs[n].value.addr.Some? {
      assert want[n].node == objs[n].value.node ==>
          (InRange(pool, objs[n].value) <==> Offers(pool, want[n], objs[n].value.addr.value));
      if InRange(pool, objs[n].value) {
        EarlierHolder(pool, objs, n);
      }
    }
    hide Less, NodeRange, Reserved, InRange, Offers;
  }

  lemma EarlierHolder(pool: Pool, objs: Allocs, n: string)
    requires n in objs && objs[n].value.addr.Some? && (pool.Ingress? ==> objs[n].value.addr.value > 0)
    ensures objs[n].value.addr.value in Reserved(pool, objs, Before(objs, n)) <==>
        exists m | m in objs && Less(m, n) :: objs[m].value.addr == objs[n].value.addr
  {
    hide Less;
    if m :| m in objs && Less(m, n) && objs[m].value.addr == objs[n].value.addr {
      assert m in Before(objs, n) && Reserves(pool, objs[m].value);
    }
  }

  lemma CleanKeys(pool: Pool, want: map<string, Spec>, objs: Allocs)
    requires Clean(pool, want, objs)
    ensures objs.Keys <= want.Keys
  {}

  lemma {:induction false} ReservedSize(pool: Pool, objs: Allocs, names: set<string>)
    requires names <= objs.Keys
    ensures |Reserved(pool, objs, names)| <= |names|
    decreases |names|
  {
    if names == {} {
      assert Reserved(pool, objs, names) == {};
    } else {
      var n :| n in names;
      ReservedSize(pool, objs, names - {n});
      ReservedOneMore(pool, objs, names - {n}, n);
      assert names == names - {n} + {n};
    }
  }

  lemma ReservedOneMore(pool: Pool, objs: Allocs, names: set<string>, n: string)
    requires names + {n} <= objs.Keys
    ensures |Reserved(pool, objs, names + {n})| <= |Reserved(pool, objs, names)| + 1
  {
    if Reserves(pool, objs[n].value) {
      assert Reserved(pool, objs, names + {n}) == Reserved(pool, objs, names) + {objs[n].value.addr.value};
    } else {
      assert Reserved(pool, objs, names + {n}) == Reserved(pool, objs, names);
    }
  }

  lemma ScanStart(pool: Pool, listed: Listing, objs: Allocs)
    ensures Prefix(listed, 0) == {} && Reserved(pool, objs, {}) == {}
  {}

  /** The scan's own test, on the addresses seen so far, is the test for surviving. */
  lemma ScanDecides(pool: Pool, want: map<string, Spec>, objs: Allocs, listed: Listing, k: nat)
    requires Lists(listed, objs) && k < |listed|
    ensures var n := listed[k].0;
            && n in objs && objs[n] == listed[k].1 && n !in Prefix(listed, k) && Prefix(listed, k) <= objs.Keys
            && Prefix(listed, k + 1) == Prefix(listed, k) + {n}
            && (n in Survivors(pool, want, objs) <==>
                  n in want && Sound(pool, want[n], objs[n].value)
                  && objs[n].value.addr.value !in Reserved(pool, objs, Prefix(listed, k)))
  {
    PrefixIsBefore(listed, objs, k);
  }

  lemma ScanEnd(listed: Listing, objs: Allocs, kept: set<string>)
    requires Lists(listed, objs) && kept <= objs.Keys
    ensures Prefix(listed, |listed|) == objs.Keys
    ensures objs.Keys * kept == kept && objs - (objs.Keys - kept) == map n | n in kept :: objs[n]
  {}

  lemma ScanStep(pool: Pool, want: map<string, Spec>, objs: Allocs, kept: set<string>, seen: set<string>, n: string)
    requires seen <= objs.Keys && n in objs && n !in seen
    ensures want - ((seen + {n}) * kept) == if n in kept then want - (seen * kept) - {n} else want - (seen * kept)
    ensures objs - (seen + {n} - kept) == if n in kept then objs - (seen - kept) else objs - (seen - kept) - {n}
    ensures Reserved(pool, objs, seen + {n})
         == Reserved(pool, objs, seen) + if Reserves(pool, objs[n].value) then {objs[n].value.addr.value} else {}
  {
    if n in kept {
      assert (seen + {n}) * kept == seen * kept + {n} && seen + {n} - kept == seen - kept;
    } else {
      assert (seen + {n}) * kept == seen * kept && seen + {n} - kept == seen - kept + {n};
    }
  }
}
