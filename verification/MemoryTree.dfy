/**
 Nested memory pools.  A pool is divided into reservations; taking a reservation turns it
 into a child pool of the same size.  Freeing either end of that pair frees the pair and
 everything reserved below it.
 */
module MemoryTree {
  import opened Options
  import opened Sums

  type Handle = nat

  datatype Pool = Pool(
    capacity: int,
    reserved: int,
    taken: int,
    released: bool,
    reservations: set<Handle>,
    parent: Option<Handle>)

  datatype Reservation = Reservation(
    pool: Handle,
    kind: string,
    capacity: int,
    taken: bool,
    child: Option<Handle>,
    released: bool)

  datatype Store = Store(pools: map<Handle, Pool>, cuts: map<Handle, Reservation>)

  function Size(cuts: map<Handle, Reservation>): Handle -> int {
    (r: Handle) => if r in cuts then cuts[r].capacity else 0
  }

  function TakenSize(cuts: map<Handle, Reservation>): Handle -> int {
    (r: Handle) => if r in cuts && cuts[r].taken then cuts[r].capacity else 0
  }

  predicate CutOf(s: Store, p: Handle, r: Handle) {
    r in s.cuts && s.cuts[r].pool == p
  }

  predicate ChildOf(s: Store, r: Handle, q: Handle) {
    q in s.pools && s.pools[q].parent == Some(r)
  }

  predicate Took(s: Store, r: Handle, q: Handle) {
    r in s.cuts && s.cuts[r].child == Some(q)
  }

  /** Handles grow downwards; reservations know their pools, taken reservations and child
      pools know each other and have the same size. */
  ghost predicate Nested(s: Store) {
    && (forall p: Handle, r: Handle :: CutOf(s, p, r) ==> p in s.pools && p < r)
    && (forall r: Handle, q: Handle :: ChildOf(s, r, q) ==> Took(s, r, q))
    && (forall r: Handle, q: Handle :: Took(s, r, q) ==>
          ChildOf(s, r, q) && r < q && s.pools[q].capacity == s.cuts[r].capacity)
    && (forall r :: r in s.cuts ==> (s.cuts[r].taken <==> s.cuts[r].child.Some?) && s.cuts[r].capacity >= 0)
  }

  /** A pool lists exactly its live reservations; a live reservation has a live pool; a
      reservation and its child pool live and die together.  Pools whose reservations are
      still being freed are `doomed`. */
  ghost predicate Linked(s: Store, doomed: set<Handle>) {
    && (forall p: Handle, r: Handle :: p in s.pools && r in s.pools[p].reservations ==>
          CutOf(s, p, r) && !s.cuts[r].released)
    && (forall p: Handle, r: Handle :: CutOf(s, p, r) && p in s.pools && !s.cuts[r].released ==>
          r in s.pools[p].reservations && (!s.pools[p].released || p in doomed))
    && (forall r: Handle, q: Handle :: ChildOf(s, r, q) && r in s.cuts ==>
          && (s.cuts[r].released ==> s.pools[q].released)
          && (s.pools[q].released ==> s.cuts[r].released || q in doomed))
  }

  /** Reserved and taken bytes are the sums over live reservations and fit the pool. */
  ghost predicate CountedAt(s: Store, p: Handle)
    requires p in s.pools
  {
    && s.pools[p].reserved == Sum(s.pools[p].reservations, Size(s.cuts))
    && s.pools[p].taken == Sum(s.pools[p].reservations, TakenSize(s.cuts))
    && s.pools[p].reserved <= s.pools[p].capacity
  }

  ghost predicate Counted(s: Store) {
    forall p :: p in s.pools ==> CountedAt(s, p)
  }

  ghost predicate Sound(s: Store, doomed: set<Handle>) {
    Nested(s) && Linked(s, doomed) && Counted(s)
  }

  /** Taken never exceeds reserved, and neither is negative. */
  lemma {:induction false} TakenWithin(cuts: map<Handle, Reservation>, rs: set<Handle>)
    requires forall r :: r in cuts ==> cuts[r].capacity >= 0
    ensures 0 <= Sum(rs, TakenSize(cuts)) <= Sum(rs, Size(cuts))
  {
    if rs != {} {
      var r :| r in rs;
      SumRemove(rs, Size(cuts), r);
      SumRemove(rs, TakenSize(cuts), r);
      TakenWithin(cuts, rs - {r});
    }
  }

  /** Sums see only the sizes of reservations. */
  lemma SameSums(s: Store, s': Store, p: Handle)
    requires p in s.pools && p in s'.pools && CountedAt(s, p)
    requires s'.pools[p] == s.pools[p].(released := s'.pools[p].released, parent := s'.pools[p].parent)
    requires forall r :: r in s.pools[p].reservations ==>
      Size(s'.cuts)(r) == Size(s.cuts)(r) && TakenSize(s'.cuts)(r) == TakenSize(s.cuts)(r)
    ensures CountedAt(s', p)
  {
    SumChange(s.pools[p].reservations, Size(s.cuts), Size(s'.cuts), 0);
    SumChange(s.pools[p].reservations, TakenSize(s.cuts), TakenSize(s'.cuts), 0);
  }

  // ---------------------------------------------------------- growing the structure

  function AddPool(s: Store, n: Handle, capacity: int): Store {
    s.(pools := s.pools[n := Pool(capacity, 0, 0, false, {}, None)])
  }

  lemma AddPoolKeeps(s: Store, n: Handle, capacity: int)
    requires Sound(s, {}) && n !in s.pools && capacity >= 0 && forall r :: r in s.cuts ==> r < n
    ensures Sound(AddPool(s, n, capacity), {})
  {
    hide Counted;
    var s' := AddPool(s, n, capacity);
    assert forall r: Handle, q: Handle :: ChildOf(s', r, q) <==> ChildOf(s, r, q);
    assert forall r: Handle, q: Handle :: Took(s', r, q) <==> Took(s, r, q);
    assert forall p: Handle, r: Handle :: CutOf(s', p, r) <==> CutOf(s, p, r);
    AddPoolCounts(s, n, capacity);
  }

  lemma AddPoolCounts(s: Store, n: Handle, capacity: int)
    requires Counted(s) && n !in s.pools && capacity >= 0
    ensures Counted(AddPool(s, n, capacity))
  {
    assert Sum({}, Size(s.cuts)) == 0 && Sum({}, TakenSize(s.cuts)) == 0;
  }

  function AddCut(s: Store, p: Handle, n: Handle, kind: string, size: int): Store
    requires p in s.pools
  {
    var pool := s.pools[p];
    Store(s.pools[p := pool.(reserved := pool.reserved + size, reservations := pool.reservations + {n})],
          s.cuts[n := Reservation(p, kind, size, false, None, false)])
  }

  lemma AddCutKeeps(s: Store, p: Handle, n: Handle, kind: string, size: int)
    requires Sound(s, {}) && p in s.pools && !s.pools[p].released && n !in s.cuts && p < n
    requires 0 <= size <= s.pools[p].capacity - s.pools[p].reserved
    ensures Sound(AddCut(s, p, n, kind, size), {})
  {
    hide Nested, Linked, CountedAt, AddCut;
    AddCutShape(s, p, n, kind, size);
    Unlisted(s, n);
    var s' := AddCut(s, p, n, kind, size);
    AddCutPools(s, p, n, kind, size);
    forall q | q in s'.pools ensures CountedAt(s', q) {
      AddCutCounts(s, p, n, kind, size, q);
    }
  }

  lemma AddCutPools(s: Store, p: Handle, n: Handle, kind: string, size: int)
    requires p in s.pools
    ensures AddCut(s, p, n, kind, size).pools.Keys == s.pools.Keys
  {
  }

  lemma Unlisted(s: Store, n: Handle)
    requires Linked(s, {}) && n !in s.cuts
    ensures forall x :: x in s.pools ==> n !in s.pools[x].reservations
  {
    forall x | x in s.pools ensures n !in s.pools[x].reservations {
      assert !CutOf(s, x, n);
    }
  }

  lemma AddCutShape(s: Store, p: Handle, n: Handle, kind: string, size: int)
    requires Nested(s) && Linked(s, {}) && p in s.pools && !s.pools[p].released && n !in s.cuts && p < n && size >= 0
    ensures Nested(AddCut(s, p, n, kind, size)) && Linked(AddCut(s, p, n, kind, size), {})
  {
    var s' := AddCut(s, p, n, kind, size);
    assert forall q: Handle, r: Handle :: CutOf(s', q, r) <==> CutOf(s, q, r) || (q == p && r == n);
    assert forall r: Handle, q: Handle :: ChildOf(s', r, q) <==> ChildOf(s, r, q);
    assert forall r: Handle, q: Handle :: Took(s', r, q) <==> Took(s, r, q);
    forall q: Handle, r: Handle | q in s'.pools && r in s'.pools[q].reservations
      ensures CutOf(s', q, r) && !s'.cuts[r].released
    {
      if r != n {
        assert CutOf(s, q, r);
      }
    }
  }

  lemma SumsWith(cuts: map<Handle, Reservation>, rs: set<Handle>, n: Handle, cut: Reservation)
    requires n !in rs && n !in cuts && !cut.taken
    ensures Sum(rs + {n}, Size(cuts[n := cut])) == Sum(rs, Size(cuts)) + cut.capacity
    ensures Sum(rs + {n}, TakenSize(cuts[n := cut])) == Sum(rs, TakenSize(cuts))
  {
    var cuts' := cuts[n := cut];
    SumChange(rs, Size(cuts), Size(cuts'), n);
    SumChange(rs, TakenSize(cuts), TakenSize(cuts'), n);
    SumAdd(rs, Size(cuts'), n);
    SumAdd(rs, TakenSize(cuts'), n);
  }

  lemma AddCutCounts(s: Store, p: Handle, n: Handle, kind: string, size: int, q: Handle)
    requires p in s.pools && q in s.pools && CountedAt(s, q) && size <= s.pools[p].capacity - s.pools[p].reserved
    requires n !in s.cuts && n !in s.pools[q].reservations
    ensures CountedAt(AddCut(s, p, n, kind, size), q)
  {
    if q != p {
      SameSums(s, AddCut(s, p, n, kind, size), q);
    } else {
      hide Size, TakenSize;
      SumsWith(s.cuts, s.pools[p].reservations, n, Reservation(p, kind, size, false, None, false));
    }
  }

  function TakeCut(s: Store, r: Handle, n: Handle): Store
    requires r in s.cuts && s.cuts[r].pool in s.pools
  {
    var cut := s.cuts[r];
    var pool := s.pools[cut.pool];
    Store(s.pools[cut.pool := pool.(taken := pool.taken + cut.capacity)]
                 [n := Pool(cut.capacity, 0, 0, false, {}, Some(r))],
          s.cuts[r := cut.(taken := true, child := Some(n))])
  }

  lemma TakeKeeps(s: Store, r: Handle, n: Handle)
    requires Sound(s, {}) && r in s.cuts && !s.cuts[r].released && !s.cuts[r].taken && n !in s.pools && r < n
    ensures s.cuts[r].pool in s.pools && Sound(TakeCut(s, r, n), {})
  {
    assert CutOf(s, s.cuts[r].pool, r);
    TakeShape(s, r, n);
    hide Nested, Linked;
    var s' := TakeCut(s, r, n);
    forall q | q in s'.pools ensures CountedAt(s', q) {
      TakeCounts(s, r, n, q);
    }
  }

  lemma TakeShape(s: Store, r: Handle, n: Handle)
    requires Nested(s) && Linked(s, {}) && r in s.cuts && !s.cuts[r].released && !s.cuts[r].taken && n !in s.pools && r < n
    requires s.cuts[r].pool in s.pools
    ensures Nested(TakeCut(s, r, n)) && Linked(TakeCut(s, r, n), {})
    ensures forall q :: q in s.pools ==> (r in s.pools[q].reservations <==> q == s.cuts[r].pool)
  {
    var s' := TakeCut(s, r, n);
    assert forall q: Handle, x: Handle :: CutOf(s', q, x) <==> CutOf(s, q, x);
    assert forall x: Handle, q: Handle :: ChildOf(s', x, q) <==> ChildOf(s, x, q) || (x == r && q == n);
    assert forall x: Handle, q: Handle :: Took(s', x, q) <==> Took(s, x, q) || (x == r && q == n);
    forall q | q in s.pools ensures r in s.pools[q].reservations <==> q == s.cuts[r].pool {
      assert CutOf(s, q, r) <==> q == s.cuts[r].pool;
    }
    forall q: Handle, x: Handle | q in s'.pools && x in s'.pools[q].reservations
      ensures CutOf(s', q, x) && !s'.cuts[x].released
    {
      assert CutOf(s, q, x);
    }
  }

  lemma CountedIs(s: Store, p: Handle)
    requires Counted(s) && p in s.pools
    ensures CountedAt(s, p)
  {
    hide CountedAt;
  }

  /** Taking a reservation adds it to the taken bytes of the pool that lists it. */
  lemma SumsTaken(cuts: map<Handle, Reservation>, rs: set<Handle>, r: Handle, cut: Reservation)
    requires r in cuts && !cuts[r].taken && cut.taken && cut.capacity == cuts[r].capacity
    ensures Sum(rs, Size(cuts[r := cut])) == Sum(rs, Size(cuts))
    ensures Sum(rs, TakenSize(cuts[r := cut])) == Sum(rs, TakenSize(cuts)) + if r in rs then cut.capacity else 0
  {
    hide Sum;
    var cuts' := cuts[r := cut];
    SumChange(rs, Size(cuts), Size(cuts'), r);
    SumChange(rs, TakenSize(cuts), TakenSize(cuts'), r);
  }

  lemma SumsOfNone(cuts: map<Handle, Reservation>)
    ensures Sum({}, Size(cuts)) == 0 && Sum({}, TakenSize(cuts)) == 0
  {
  }

  lemma TakeCounts(s: Store, r: Handle, n: Handle, q: Handle)
    requires Counted(s) && r in s.cuts && !s.cuts[r].taken && s.cuts[r].capacity >= 0 && n !in s.pools && s.cuts[r].pool in s.pools
    requires forall x :: x in s.pools ==> (r in s.pools[x].reservations <==> x == s.cuts[r].pool)
    requires q in s.pools || q == n
    ensures CountedAt(TakeCut(s, r, n), q)
  {
    hide Counted, Sum, Size, TakenSize;
    var s' := TakeCut(s, r, n);
    if q == n {
      SumsOfNone(s'.cuts);
    } else {
      CountedIs(s, q);
      SumsTaken(s.cuts, s.pools[q].reservations, r, s'.cuts[r]);
    }
  }

  // ------------------------------------------------------------------------ freeing

  function Dropped(pool: Pool, r: Handle, cut: Reservation): Pool {
    pool.(reserved := pool.reserved - cut.capacity,
          taken := pool.taken - (if cut.taken then cut.capacity else 0),
          reservations := pool.reservations - {r})
  }

  /** A live reservation leaves its pool; its child pool, if any, is marked. */
  function Detached(s: Store, r: Handle): Store
    requires r in s.cuts && s.cuts[r].pool in s.pools && (s.cuts[r].child.Some? ==> s.cuts[r].child.value in s.pools)
  {
    var cut := s.cuts[r];
    var pools := s.pools[cut.pool := Dropped(s.pools[cut.pool], r, cut)];
    Store(if cut.child.Some? then pools[cut.child.value := s.pools[cut.child.value].(released := true)] else pools,
          s.cuts[r := cut.(released := true)])
  }

  function ChildSet(s: Store, r: Handle): set<Handle>
    requires r in s.cuts
  {
    if s.cuts[r].child.Some? then {s.cuts[r].child.value} else {}
  }

  lemma CutFacts(s: Store, r: Handle)
    requires Nested(s) && r in s.cuts
    ensures s.cuts[r].pool in s.pools && s.cuts[r].pool < r
    ensures s.cuts[r].child.Some? ==> ChildOf(s, r, s.cuts[r].child.value) && r < s.cuts[r].child.value
  {
    assert CutOf(s, s.cuts[r].pool, r);
    if s.cuts[r].child.Some? {
      assert Took(s, r, s.cuts[r].child.value);
    }
  }

  lemma ListedOnce(s: Store, doomed: set<Handle>, r: Handle)
    requires Nested(s) && Linked(s, doomed) && r in s.cuts && !s.cuts[r].released
    ensures forall q :: q in s.pools ==> (r in s.pools[q].reservations <==> q == s.cuts[r].pool)
  {
    forall q | q in s.pools ensures r in s.pools[q].reservations <==> q == s.cuts[r].pool {
      assert CutOf(s, q, r) <==> q == s.cuts[r].pool;
    }
  }

  lemma DetachShape(s: Store, doomed: set<Handle>, r: Handle)
    requires Nested(s) && Linked(s, doomed) && r in s.cuts && !s.cuts[r].released
    requires s.cuts[r].pool in s.pools && s.cuts[r].pool < r
    requires s.cuts[r].child.Some? ==> ChildOf(s, r, s.cuts[r].child.value) && r < s.cuts[r].child.value
    ensures Nested(Detached(s, r)) && Linked(Detached(s, r), doomed + ChildSet(s, r))
  {
    var s' := Detached(s, r);
    ListedOnce(s, doomed, r);
    assert forall q: Handle, x: Handle :: CutOf(s', q, x) <==> CutOf(s, q, x);
    assert forall x: Handle, q: Handle :: ChildOf(s', x, q) <==> ChildOf(s, x, q);
    assert forall x: Handle, q: Handle :: Took(s', x, q) <==> Took(s, x, q);
    forall q: Handle, x: Handle | q in s'.pools && x in s'.pools[q].reservations
      ensures CutOf(s', q, x) && !s'.cuts[x].released
    {
      assert x in s.pools[q].reservations;
      assert CutOf(s, q, x);
    }
  }

  /** Removing one reservation from the sums of its pool. */
  lemma SumsWithout(cuts: map<Handle, Reservation>, rs: set<Handle>, r: Handle)
    requires r in rs && r in cuts
    ensures var cuts' := cuts[r := cuts[r].(released := true)];
      && Sum(rs - {r}, Size(cuts')) == Sum(rs, Size(cuts)) - cuts[r].capacity
      && Sum(rs - {r}, TakenSize(cuts')) == Sum(rs, TakenSize(cuts)) - (if cuts[r].taken then cuts[r].capacity else 0)
  {
    var cuts' := cuts[r := cuts[r].(released := true)];
    SumRemove(rs, Size(cuts), r);
    SumRemove(rs, TakenSize(cuts), r);
    SumChange(rs - {r}, Size(cuts), Size(cuts'), r);
    SumChange(rs - {r}, TakenSize(cuts), TakenSize(cuts'), r);
  }

  lemma DetachCountsHome(s: Store, r: Handle)
    requires r in s.cuts && s.cuts[r].capacity >= 0 && s.cuts[r].pool in s.pools
    requires CountedAt(s, s.cuts[r].pool) && r in s.pools[s.cuts[r].pool].reservations
    requires s.cuts[r].child.Some? ==> s.cuts[r].child.value in s.pools && s.cuts[r].child.value != s.cuts[r].pool
    ensures CountedAt(Detached(s, r), s.cuts[r].pool)
  {
    hide Size, TakenSize;
    SumsWithout(s.cuts, s.pools[s.cuts[r].pool].reservations, r);
  }

  lemma DetachCountsOther(s: Store, r: Handle, q: Handle)
    requires r in s.cuts && s.cuts[r].pool in s.pools && q in s.pools && q != s.cuts[r].pool
    requires CountedAt(s, q) && r !in s.pools[q].reservations
    requires s.cuts[r].child.Some? ==> s.cuts[r].child.value in s.pools
    ensures CountedAt(Detached(s, r), q)
  {
    SameSums(s, Detached(s, r), q);
  }

  lemma DetachKeeps(s: Store, doomed: set<Handle>, r: Handle)
    requires Sound(s, doomed) && r in s.cuts && !s.cuts[r].released
    ensures s.cuts[r].pool in s.pools && (s.cuts[r].child.Some? ==> s.cuts[r].child.value in s.pools)
    ensures Sound(Detached(s, r), doomed + ChildSet(s, r))
  {
    CutFacts(s, r);
    assert s.cuts[r].capacity >= 0;
    DetachShape(s, doomed, r);
    ListedOnce(s, doomed, r);
    hide Nested, Linked;
    var s' := Detached(s, r);
    forall q | q in s'.pools ensures CountedAt(s', q) {
      assert CountedAt(s, q);
      if q == s.cuts[r].pool {
        DetachCountsHome(s, r);
      } else {
        DetachCountsOther(s, r, q);
      }
    }
  }

  /** An emptied pool whose reservation is gone too needs no further attention. */
  lemma Undoom(s: Store, doomed: set<Handle>, q: Handle)
    requires Sound(s, doomed) && q in s.pools && s.pools[q].reservations == {}
    requires forall r: Handle :: ChildOf(s, r, q) ==> r in s.cuts && s.cuts[r].released
    ensures Sound(s, doomed - {q})
  {
    hide Counted;
    assert forall r: Handle :: CutOf(s, q, r) && !s.cuts[r].released ==> r in s.pools[q].reservations;
  }

  function Marked(s: Store, q: Handle): Store
    requires q in s.pools
  {
    s.(pools := s.pools[q := s.pools[q].(released := true)])
  }

  lemma MarkKeeps(s: Store, doomed: set<Handle>, q: Handle)
    requires Sound(s, doomed) && q in s.pools
    ensures Sound(Marked(s, q), doomed + {q})
  {
    hide Counted;
    var s' := Marked(s, q);
    assert forall p: Handle, x: Handle :: CutOf(s', p, x) <==> CutOf(s, p, x);
    assert forall x: Handle, p: Handle :: ChildOf(s', x, p) <==> ChildOf(s, x, p);
    assert forall x: Handle, p: Handle :: Took(s', x, p) <==> Took(s, x, p);
    forall p: Handle, x: Handle | p in s'.pools && x in s'.pools[p].reservations
      ensures CutOf(s', p, x) && !s'.cuts[x].released
    {
      assert CutOf(s, p, x);
    }
    MarkCounts(s, q);
  }

  lemma MarkCounts(s: Store, q: Handle)
    requires Counted(s) && q in s.pools
    ensures Counted(Marked(s, q))
  {
  }

  // --------------------------------------------------------------- what lies below

  /** Reservation `x` was cut from pool `q` or from a pool further down. */
  ghost predicate Under(s: Store, x: Handle, q: Handle)
    decreases x
  {
    x in s.cuts &&
    (s.cuts[x].pool == q ||
     (s.cuts[x].pool in s.pools && s.pools[s.cuts[x].pool].parent.Some? && s.pools[s.cuts[x].pool].parent.value < x
      && Under(s, s.pools[s.cuts[x].pool].parent.value, q)))
  }

  ghost predicate PoolUnder(s: Store, p: Handle, q: Handle) {
    p in s.pools && s.pools[p].parent.Some? && Under(s, s.pools[p].parent.value, q)
  }

  /** The pair of a reservation and its child pool, and all below. */
  ghost predicate CutWithin(s: Store, x: Handle, c: Handle) {
    x == c || (c in s.cuts && s.cuts[c].child.Some? && Under(s, x, s.cuts[c].child.value))
  }

  ghost predicate PoolWithin(s: Store, p: Handle, c: Handle) {
    c in s.cuts && s.cuts[c].child.Some? && (p == s.cuts[c].child.value || PoolUnder(s, p, s.cuts[c].child.value))
  }

  ghost predicate SameFamily(s: Store, s': Store) {
    && s.cuts.Keys == s'.cuts.Keys && s.pools.Keys == s'.pools.Keys
    && (forall x :: x in s.cuts ==> s'.cuts[x].pool == s.cuts[x].pool && s'.cuts[x].child == s.cuts[x].child)
    && (forall p :: p in s.pools ==> s'.pools[p].parent == s.pools[p].parent)
  }

  lemma {:induction false} UnderKept(s: Store, s': Store, x: Handle, q: Handle)
    requires SameFamily(s, s')
    ensures Under(s', x, q) <==> Under(s, x, q)
    decreases x
  {
    if x in s.cuts && s.cuts[x].pool in s.pools && s.pools[s.cuts[x].pool].parent.Some?
       && s.pools[s.cuts[x].pool].parent.value < x {
      UnderKept(s, s', s.pools[s.cuts[x].pool].parent.value, q);
    }
  }

  lemma WithinKept(s: Store, s': Store, x: Handle, c: Handle)
    requires SameFamily(s, s')
    ensures CutWithin(s', x, c) <==> CutWithin(s, x, c)
    ensures PoolWithin(s', x, c) <==> PoolWithin(s, x, c)
  {
    if c in s.cuts && s.cuts[c].child.Some? {
      UnderKept(s, s', x, s.cuts[c].child.value);
      if x in s.pools && s.pools[x].parent.Some? {
        UnderKept(s, s', s.pools[x].parent.value, s.cuts[c].child.value);
      }
    }
  }

  /** Handles grow downwards. */
  lemma {:induction false} UnderYounger(s: Store, x: Handle, q: Handle)
    requires Nested(s) && Under(s, x, q)
    ensures q < x && q <= s.cuts[x].pool
    decreases x
  {
    assert CutOf(s, s.cuts[x].pool, x);
    if s.cuts[x].pool != q {
      var p := s.cuts[x].pool;
      var y := s.pools[p].parent.value;
      UnderYounger(s, y, q);
      assert ChildOf(s, y, p);
    }
  }

  /** A live reservation below `q` is reached through a reservation that `q` lists. */
  lemma {:induction false} WayDown(s: Store, doomed: set<Handle>, x: Handle, q: Handle) returns (c: Handle)
    requires Nested(s) && Linked(s, doomed) && q in s.pools && Under(s, x, q) && !s.cuts[x].released
    requires forall y :: y in doomed ==> y <= q
    ensures c in s.pools[q].reservations && CutWithin(s, x, c)
    decreases x
  {
    var p := s.cuts[x].pool;
    assert CutOf(s, p, x);
    if p == q {
      c := x;
    } else {
      var y := s.pools[p].parent.value;
      UnderYounger(s, y, q);
      assert ChildOf(s, y, p);
      c := WayDown(s, doomed, y, q);
    }
  }

  /** What is below a listed reservation is below the pool. */
  lemma {:induction false} UnderThrough(s: Store, x: Handle, c: Handle, q: Handle)
    requires Nested(s) && CutOf(s, q, c) && CutWithin(s, x, c)
    ensures Under(s, x, q)
    decreases x
  {
    if x != c {
      var p := s.cuts[x].pool;
      if p == s.cuts[c].child.value {
        assert Took(s, c, p);
        UnderYounger(s, x, p);
      } else {
        var y := s.pools[p].parent.value;
        UnderThrough(s, y, c, q);
      }
    }
  }

  // ---------------------------------------------------------------------- narrowing

  datatype Plan = Plan(handle: Handle, size: int)

  /** A pending reservation keeps its handle and returns the excess to its pool. */
  function Resized(s: Store, plan: Plan): Store
    requires plan.handle in s.cuts && s.cuts[plan.handle].pool in s.pools
  {
    var cut := s.cuts[plan.handle];
    var pool := s.pools[cut.pool];
    Store(s.pools[cut.pool := pool.(reserved := pool.reserved - (cut.capacity - plan.size))],
          s.cuts[plan.handle := cut.(capacity := plan.size)])
  }

  /** Live, not growing, and untouched once it backs a pool. */
  predicate MayResize(s: Store, plan: Plan) {
    && plan.handle in s.cuts && !s.cuts[plan.handle].released
    && 0 <= plan.size <= s.cuts[plan.handle].capacity
    && (s.cuts[plan.handle].taken ==> plan.size == s.cuts[plan.handle].capacity)
  }

  lemma ResizeShape(s: Store, plan: Plan)
    requires Nested(s) && Linked(s, {}) && MayResize(s, plan) && s.cuts[plan.handle].pool in s.pools
    ensures Nested(Resized(s, plan)) && Linked(Resized(s, plan), {})
  {
    var s' := Resized(s, plan);
    assert forall q: Handle, x: Handle :: CutOf(s', q, x) <==> CutOf(s, q, x);
    assert forall x: Handle, q: Handle :: ChildOf(s', x, q) <==> ChildOf(s, x, q);
    assert forall x: Handle, q: Handle :: Took(s', x, q) <==> Took(s, x, q);
    forall q: Handle, x: Handle | q in s'.pools && x in s'.pools[q].reservations
      ensures CutOf(s', q, x) && !s'.cuts[x].released
    {
      assert CutOf(s, q, x);
    }
  }

  lemma ResizeCounts(s: Store, plan: Plan, q: Handle)
    requires MayResize(s, plan) && s.cuts[plan.handle].pool in s.pools && q in s.pools && CountedAt(s, q)
    requires plan.handle in s.pools[q].reservations <==> q == s.cuts[plan.handle].pool
    ensures CountedAt(Resized(s, plan), q)
  {
    var s' := Resized(s, plan);
    SumChange(s.pools[q].reservations, Size(s.cuts), Size(s'.cuts), plan.handle);
    SumChange(s.pools[q].reservations, TakenSize(s.cuts), TakenSize(s'.cuts), plan.handle);
  }

  lemma ResizeKeeps(s: Store, plan: Plan)
    requires Sound(s, {}) && MayResize(s, plan)
    ensures s.cuts[plan.handle].pool in s.pools && Sound(Resized(s, plan), {})
  {
    CutFacts(s, plan.handle);
    ResizeShape(s, plan);
    ListedOnce(s, {}, plan.handle);
    hide Nested, Linked;
    forall q | q in s.pools ensures CountedAt(Resized(s, plan), q) {
      assert CountedAt(s, q);
      ResizeCounts(s, plan, q);
    }
  }
}
