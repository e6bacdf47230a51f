/**
 The registry of memory pools and reservations.
 */
module PeerMemory {
  import opened Limits
  import opened Options
  import opened Sums
  import opened MemoryTree


  function Emptied(pool: Pool): Pool {
    pool.(reserved := 0, taken := 0, released := true, reservations := {})
  }

  /** What becomes of a reservation and of a pool when everything cut from `q` is freed. */
  ghost function FreedReservation(s0: Store, q: Handle, x: Handle): Reservation
    requires x in s0.cuts
  {
    if Under(s0, x, q) && !s0.cuts[x].released then s0.cuts[x].(released := true) else s0.cuts[x]
  }

  ghost function FreedPool(s0: Store, q: Handle, p: Handle): Pool
    requires p in s0.pools
  {
    if p == q || (PoolUnder(s0, p, q) && !s0.pools[p].released) then Emptied(s0.pools[p]) else s0.pools[p]
  }

  /** Everything cut from pool `q`, which is itself marked, has been freed. */
  ghost predicate Freed(s0: Store, s: Store, q: Handle) {
    && SameFamily(s0, s) && q in s0.pools
    && (forall x :: x in s0.cuts ==> s.cuts[x] == FreedReservation(s0, q, x))
    && (forall p :: p in s0.pools ==> s.pools[p] == FreedPool(s0, q, p))
  }

  /** Reservation `r` has been freed, with the pool taken from it and all below. */
  ghost predicate FreedCut(s0: Store, s: Store, r: Handle) {
    && r in s0.cuts && s0.cuts[r].pool in s0.pools
    && (s0.cuts[r].child.Some? ==> s0.cuts[r].child.value in s0.pools)
    && (if s0.cuts[r].child.Some? && !s0.pools[s0.cuts[r].child.value].released
        then Freed(Detached(s0, r), s, s0.cuts[r].child.value)
        else s == Detached(s0, r))
  }

  // ----------------------------------------------------- a pool being emptied

  ghost predicate InSome(s0: Store, x: Handle, done: set<Handle>) {
    exists c :: c in done && CutWithin(s0, x, c)
  }

  ghost predicate PoolInSome(s0: Store, p: Handle, done: set<Handle>) {
    exists c :: c in done && PoolWithin(s0, p, c)
  }

  ghost predicate Emptying(s0: Store, s: Store, q: Handle, done: set<Handle>, todo: set<Handle>) {
    && SameFamily(s0, s) && q in s0.pools
    && done + todo == s0.pools[q].reservations && done !! todo
    && s.pools[q] == s0.pools[q].(reservations := todo, reserved := s.pools[q].reserved, taken := s.pools[q].taken)
    && (forall x :: x in s0.cuts ==>
          s.cuts[x] == if InSome(s0, x, done) && !s0.cuts[x].released then s0.cuts[x].(released := true) else s0.cuts[x])
    && (forall p :: p in s0.pools && p != q ==>
          s.pools[p] == if PoolInSome(s0, p, done) && !s0.pools[p].released then Emptied(s0.pools[p]) else s0.pools[p])
  }

  lemma DetachedFamily(s: Store, r: Handle)
    requires r in s.cuts && s.cuts[r].pool in s.pools && (s.cuts[r].child.Some? ==> s.cuts[r].child.value in s.pools)
    ensures SameFamily(s, Detached(s, r))
  {
  }

  /** One more reservation of `q` freed: the cuts. */
  lemma EmptyingCuts(s0: Store, s: Store, s': Store, q: Handle, done: set<Handle>, todo: set<Handle>, c: Handle, x: Handle)
    requires Emptying(s0, s, q, done, todo) && c in todo && FreedCut(s, s', c) && x in s0.cuts
    requires !s.cuts[c].released && (s.cuts[c].child.Some? ==> !s.pools[s.cuts[c].child.value].released)
    ensures s'.cuts.Keys == s0.cuts.Keys
    ensures s'.cuts[x]
      == if InSome(s0, x, done + {c}) && !s0.cuts[x].released then s0.cuts[x].(released := true) else s0.cuts[x]
  {
    DetachedFamily(s, c);
    WithinKept(s0, s, x, c);
    WithinKept(s, Detached(s, c), x, c);
    assert InSome(s0, x, done + {c}) <==> InSome(s0, x, done) || CutWithin(s0, x, c);
  }

  lemma EmptyingPools(s0: Store, s: Store, s': Store, q: Handle, done: set<Handle>, todo: set<Handle>, c: Handle, p: Handle)
    requires Emptying(s0, s, q, done, todo) && c in todo && FreedCut(s, s', c) && p in s0.pools && p != q
    requires !s.cuts[c].released && (s.cuts[c].child.Some? ==> !s.pools[s.cuts[c].child.value].released)
    requires s.cuts[c].pool == q
    ensures s'.pools.Keys == s0.pools.Keys
    ensures s'.pools[p]
      == if PoolInSome(s0, p, done + {c}) && !s0.pools[p].released then Emptied(s0.pools[p]) else s0.pools[p]
  {
    DetachedFamily(s, c);
    WithinKept(s0, s, p, c);
    WithinKept(s, Detached(s, c), p, c);
    assert PoolInSome(s0, p, done + {c}) <==> PoolInSome(s0, p, done) || PoolWithin(s0, p, c);
  }

  lemma EmptyingHome(s0: Store, s: Store, s': Store, q: Handle, done: set<Handle>, todo: set<Handle>, c: Handle)
    requires Nested(s) && Emptying(s0, s, q, done, todo) && c in todo && FreedCut(s, s', c)
    requires s.cuts[c].pool == q && c in s.cuts
    ensures SameFamily(s0, s')
    ensures s'.pools[q] == s0.pools[q].(reservations := todo - {c}, reserved := s'.pools[q].reserved, taken := s'.pools[q].taken)
  {
    DetachedFamily(s, c);
    CutFacts(s, c);
    if s.cuts[c].child.Some? {
      var qc := s.cuts[c].child.value;
      if PoolUnder(Detached(s, c), q, qc) {
        assert PoolUnder(s, q, qc) by { UnderKept(s, Detached(s, c), s.pools[q].parent.value, qc); }
        UnderYounger(s, s.pools[q].parent.value, qc);
        assert ChildOf(s, s.pools[q].parent.value, q);
      }
    }
  }

  lemma EmptyingStep(s0: Store, s: Store, s': Store, q: Handle, done: set<Handle>, todo: set<Handle>, c: Handle)
    requires Nested(s) && Emptying(s0, s, q, done, todo) && c in todo && FreedCut(s, s', c)
    requires c in s.cuts && s.cuts[c].pool == q
    requires !s.cuts[c].released && (s.cuts[c].child.Some? ==> !s.pools[s.cuts[c].child.value].released)
    ensures Emptying(s0, s', q, done + {c}, todo - {c})
  {
    hide FreedCut, InSome, PoolInSome, Nested;
    EmptyingHome(s0, s, s', q, done, todo, c);
    forall x | x in s0.cuts
      ensures s'.cuts[x]
        == if InSome(s0, x, done + {c}) && !s0.cuts[x].released then s0.cuts[x].(released := true) else s0.cuts[x]
    {
      EmptyingCuts(s0, s, s', q, done, todo, c, x);
    }
    forall p | p in s0.pools && p != q
      ensures s'.pools[p]
        == if PoolInSome(s0, p, done + {c}) && !s0.pools[p].released then Emptied(s0.pools[p]) else s0.pools[p]
    {
      EmptyingPools(s0, s, s', q, done, todo, c, p);
    }
    assert done + {c} + (todo - {c}) == s0.pools[q].reservations;
  }

  /** With every listed reservation freed, everything below `q` is. */
  lemma EmptyingEnds(s0: Store, doomed: set<Handle>, s: Store, q: Handle, done: set<Handle>)
    requires Nested(s0) && Linked(s0, doomed) && (forall y :: y in doomed ==> y <= q)
    requires Emptying(s0, s, q, done, {}) && Counted(s) && s0.pools[q].released
    ensures Freed(s0, s, q)
  {
    assert done == s0.pools[q].reservations;
    forall x | x in s0.cuts ensures s.cuts[x] == FreedReservation(s0, q, x) {
      if !s0.cuts[x].released {
        CutsBelow(s0, doomed, q, x);
      }
    }
    forall p | p in s0.pools ensures s.pools[p] == FreedPool(s0, q, p) {
      if p == q {
        NothingLeft(s, q);
      } else if !s0.pools[p].released {
        PoolsBelow(s0, doomed, q, p);
      }
    }
    hide *;
    assert Freed(s0, s, q) by { FreedIs(s0, s, q); }
  }

  lemma FreedIs(s0: Store, s: Store, q: Handle)
    requires SameFamily(s0, s) && q in s0.pools
    requires forall x :: x in s0.cuts ==> s.cuts[x] == FreedReservation(s0, q, x)
    requires forall p :: p in s0.pools ==> s.pools[p] == FreedPool(s0, q, p)
    ensures Freed(s0, s, q)
  {
  }

  lemma NothingLeft(s: Store, q: Handle)
    requires Counted(s) && q in s.pools && s.pools[q].reservations == {}
    ensures s.pools[q].reserved == 0 && s.pools[q].taken == 0
  {
    assert Sum({}, Size(s.cuts)) == 0 && Sum({}, TakenSize(s.cuts)) == 0;
  }

  lemma CutsBelow(s0: Store, doomed: set<Handle>, q: Handle, x: Handle)
    requires Nested(s0) && Linked(s0, doomed) && (forall y :: y in doomed ==> y <= q) && q in s0.pools
    requires x in s0.cuts && !s0.cuts[x].released
    ensures InSome(s0, x, s0.pools[q].reservations) <==> Under(s0, x, q)
  {
    if Under(s0, x, q) {
      var c := WayDown(s0, doomed, x, q);
    }
    if InSome(s0, x, s0.pools[q].reservations) {
      var c :| c in s0.pools[q].reservations && CutWithin(s0, x, c);
      assert CutOf(s0, q, c);
      UnderThrough(s0, x, c, q);
    }
  }

  lemma PoolsBelow(s0: Store, doomed: set<Handle>, q: Handle, p: Handle)
    requires Nested(s0) && Linked(s0, doomed) && (forall y :: y in doomed ==> y <= q) && q in s0.pools
    requires p in s0.pools && !s0.pools[p].released
    ensures PoolInSome(s0, p, s0.pools[q].reservations) <==> PoolUnder(s0, p, q)
  {
    if PoolUnder(s0, p, q) {
      var y := s0.pools[p].parent.value;
      assert ChildOf(s0, y, p);
      var c := WayDown(s0, doomed, y, q);
      assert PoolWithin(s0, p, c);
    }
    if PoolInSome(s0, p, s0.pools[q].reservations) {
      var c :| c in s0.pools[q].reservations && PoolWithin(s0, p, c);
      assert CutOf(s0, q, c);
      assert Took(s0, c, s0.cuts[c].child.value);
      UnderThrough(s0, s0.pools[p].parent.value, c, q);
    }
  }

  // ------------------------------------------------------------- either end frees both

  lemma FreedBasics(s0: Store, s: Store, q: Handle)
    requires Freed(s0, s, q)
    ensures SameFamily(s0, s) && q in s.pools && s.pools[q].reservations == {}
    ensures forall x :: x in s0.cuts && s0.cuts[x].released ==> s.cuts[x] == s0.cuts[x]
  {
  }

  /** Neither the reservation nor the pool it was cut from lies below the pool taken from it. */
  lemma AboveIsNotBelow(s: Store, q: Handle, r: Handle)
    requires Nested(s) && q in s.pools && s.pools[q].parent == Some(r) && r in s.cuts
    ensures s.cuts[r].pool in s.pools && s.cuts[r].pool != q && s.cuts[r].child == Some(q)
    ensures !Under(s, r, q) && !PoolUnder(s, s.cuts[r].pool, q)
  {
    assert ChildOf(s, r, q);
    CutFacts(s, r);
    if Under(s, r, q) {
      UnderYounger(s, r, q);
    }
    var home := s.cuts[r].pool;
    if PoolUnder(s, home, q) {
      UnderYounger(s, s.pools[home].parent.value, q);
      assert ChildOf(s, s.pools[home].parent.value, home);
    }
  }

  /** What lies below `q` is the same before and after marking it or detaching its parent. */
  lemma SameBelow(s: Store, s': Store, q: Handle, x: Handle)
    requires SameFamily(s, s')
    ensures Under(s', x, q) <==> Under(s, x, q)
    ensures PoolUnder(s', x, q) <==> PoolUnder(s, x, q)
  {
    UnderKept(s, s', x, q);
    if x in s.pools && s.pools[x].parent.Some? {
      UnderKept(s, s', s.pools[x].parent.value, q);
    }
  }

  /** The situation of `EitherEnd`: pool `q` was taken from `r`, both are live, and `s2` is
      the store after the pool was emptied. */
  ghost predicate EmptiedFirst(s0: Store, s2: Store, q: Handle, r: Handle)
  {
    && q in s0.pools && !s0.pools[q].released && s0.pools[q].parent == Some(r)
    && r in s0.cuts && !s0.cuts[r].released && s0.cuts[r].child == Some(q)
    && s0.cuts[r].pool in s0.pools && s0.cuts[r].pool != q
    && !Under(s0, r, q) && !PoolUnder(s0, s0.cuts[r].pool, q)
    && Freed(Marked(s0, q), s2, q)
  }

  lemma EmptiedFamily(s0: Store, s2: Store, q: Handle, r: Handle)
    requires EmptiedFirst(s0, s2, q, r)
    ensures SameFamily(s0, Marked(s0, q)) && SameFamily(s0, Detached(s0, r)) && SameFamily(s0, s2)
    ensures r in s2.cuts && s2.cuts[r] == s0.cuts[r] && s2.cuts[r].pool in s2.pools
    ensures SameFamily(s0, Detached(s2, r))
  {
    hide Under;
    DetachedFamily(s0, r);
    SameBelow(s0, Marked(s0, q), q, r);
    assert s2.cuts[r] == FreedReservation(Marked(s0, q), q, r);
    DetachedFamily(s2, r);
  }

  lemma EitherEndCut(s0: Store, s2: Store, q: Handle, r: Handle, x: Handle)
    requires EmptiedFirst(s0, s2, q, r) && x in s0.cuts
    ensures r in s2.cuts && s2.cuts[r].pool in s2.pools && q in Detached(s0, r).pools && x in Detached(s2, r).cuts
    ensures x in Detached(s0, r).cuts && Detached(s2, r).cuts[x] == FreedReservation(Detached(s0, r), q, x)
  {
    EmptiedFamily(s0, s2, q, r);
    hide Under;
    SameBelow(s0, Marked(s0, q), q, x);
    SameBelow(s0, Detached(s0, r), q, x);
    assert s2.cuts[x] == FreedReservation(Marked(s0, q), q, x);
  }

  lemma EitherEndPool(s0: Store, s2: Store, q: Handle, r: Handle, p: Handle)
    requires EmptiedFirst(s0, s2, q, r) && p in s0.pools
    ensures r in s2.cuts && s2.cuts[r].pool in s2.pools && p in Detached(s2, r).pools
    ensures p in Detached(s0, r).pools && Detached(s2, r).pools[p] == FreedPool(Detached(s0, r), q, p)
  {
    EmptiedFamily(s0, s2, q, r);
    hide Under;
    SameBelow(s0, Marked(s0, q), q, p);
    SameBelow(s0, Marked(s0, q), q, s0.cuts[r].pool);
    SameBelow(s0, Detached(s0, r), q, p);
    assert s2.pools[p] == FreedPool(Marked(s0, q), q, p);
  }

  /** A pool and the reservation it was taken from: emptying the pool and then dropping the
      reservation ends where dropping the reservation and then emptying the pool ends. */
  lemma EitherEnd(s0: Store, s2: Store, q: Handle, r: Handle)
    requires Nested(s0) && q in s0.pools && !s0.pools[q].released && s0.pools[q].parent == Some(r)
    requires r in s0.cuts && !s0.cuts[r].released
    requires Freed(Marked(s0, q), s2, q)
    ensures r in s2.cuts && s2.cuts[r].pool in s2.pools && s2.cuts[r].child == Some(q)
    ensures FreedCut(s0, Detached(s2, r), r)
  {
    hide Nested, Under, PoolUnder, Freed, FreedReservation, FreedPool;
    AboveIsNotBelow(s0, q, r);
    EmptiedFamily(s0, s2, q, r);
    var s1, s3 := Detached(s0, r), Detached(s2, r);
    forall x | x in s1.cuts ensures s3.cuts[x] == FreedReservation(s1, q, x) {
      EitherEndCut(s0, s2, q, r, x);
    }
    forall p | p in s1.pools ensures s3.pools[p] == FreedPool(s1, q, p) {
      EitherEndPool(s0, s2, q, r, p);
    }
    FreedIs(s1, s3, q);
  }

  class Memory {
    var store: Store
    var next: Handle

    ghost predicate Valid()
      reads this
    {
      Sound(store, {}) && Fresh(store, next)
    }

    constructor ()
      ensures Valid() && store == Store(map[], map[])
    {
      store, next := Store(map[], map[]), 0;
    }

    /** `createPeerMemoryPool`. */
    method CreatePool(capacity: int) returns (r: Option<Handle>)
      requires Valid()
      modifies this
      ensures Valid()
      ensures r.Some? <==> 0 <= capacity <= MAX_U32
      ensures r.Some? ==> r.value !in old(store).pools && store == AddPool(old(store), r.value, capacity)
      ensures r.Some? ==> store.pools[r.value] == Pool(capacity, 0, 0, false, {}, None) && store.cuts == old(store).cuts
      ensures r.None? ==> store == old(store)
    {
      if !(0 <= capacity <= MAX_U32) {
        return None;
      }
      AddPoolKeeps(store, next, capacity);
      store := AddPool(store, next, capacity);
      r := Some(next);
      next := next + 1;
    }

    /** `reservePeerMemory`. */
    method Reserve(p: Handle, kind: string, size: int) returns (r: Option<Handle>)
      requires Valid()
      modifies this
      ensures Valid()
      ensures r.Some? <==>
        && p in old(store).pools && !old(store).pools[p].released && kind != [] && 0 <= size <= MAX_U32
        && size <= old(store).pools[p].capacity - old(store).pools[p].reserved
      ensures r.Some? ==> r.value !in old(store).cuts && store == AddCut(old(store), p, r.value, kind, size)
      ensures r.Some? ==>
        && store.cuts[r.value] == Reservation(p, kind, size, false, None, false)
        && store.pools[p].reserved == old(store).pools[p].reserved + size
        && store.pools[p].capacity == old(store).pools[p].capacity && store.pools[p].taken == old(store).pools[p].taken
        && forall q :: q in old(store).pools && q != p ==> store.pools[q] == old(store).pools[q]
      ensures r.None? ==> store == old(store)
    {
      hide Sound;
      if p !in store.pools || store.pools[p].released || kind == [] || !(0 <= size <= MAX_U32)
         || size > store.pools[p].capacity - store.pools[p].reserved {
        return None;
      }
      AddCutKeeps(store, p, next, kind, size);
      store := AddCut(store, p, next, kind, size);
      r := Some(next);
      next := next + 1;
    }

    /** `takePeerMemory`. */
    method Take(c: Handle) returns (r: Option<Handle>)
      requires Valid()
      modifies this
      ensures Valid()
      ensures r.Some? <==> c in old(store).cuts && !old(store).cuts[c].released && !old(store).cuts[c].taken
      ensures r.Some? ==>
        && r.value !in old(store).pools && old(store).cuts[c].pool in old(store).pools
        && store == TakeCut(old(store), c, r.value)
        && var cut := old(store).cuts[c];
           && store.pools[r.value] == Pool(cut.capacity, 0, 0, false, {}, Some(c))
           && store.cuts[c] == cut.(taken := true, child := Some(r.value))
           && (cut.pool != r.value ==> store.pools[cut.pool].taken == old(store).pools[cut.pool].taken + cut.capacity
                                       && store.pools[cut.pool].reserved == old(store).pools[cut.pool].reserved)
      ensures r.None? ==> store == old(store)
    {
      hide Sound;
      if c !in store.cuts || store.cuts[c].released || store.cuts[c].taken {
        return None;
      }
      TakeKeeps(store, c, next);
      store := TakeCut(store, c, next);
      r := Some(next);
      next := next + 1;
    }

    /** `_releaseReservation` on a live reservation. */
    method FreeCut(r: Handle, ghost doomed: set<Handle>)
      requires Sound(store, doomed) && Fresh(store, next) && r in store.cuts && !store.cuts[r].released
      requires (forall y :: y in doomed ==> y < r) || (store.cuts[r].child.Some? && store.cuts[r].child.value in doomed)
      requires store.cuts[r].child.Some? && store.cuts[r].child.value in store.pools ==>
        (store.pools[store.cuts[r].child.value].released <==> store.cuts[r].child.value in doomed)
      modifies this`store
      ensures Sound(store, doomed) && Fresh(store, next) && FreedCut(old(store), store, r)
      decreases next - r
    {
      hide Nested, Linked, Counted, Freed;
      DetachKeeps(store, doomed, r);
      DetachedFamily(store, r);
      CutFacts(store, r);
      var child := store.cuts[r].child;
      var live := child.Some? && !store.pools[child.value].released;
      store := Detached(store, r);
      if live {
        FreeContents(child.value, doomed + {child.value});
        FreedBasics(Detached(old(store), r), store, child.value);
        Undoom(store, doomed + {child.value}, child.value);
        assert doomed + {child.value} - {child.value} == doomed;
      } else {
        assert doomed + ChildSet(old(store), r) == doomed;
      }
    }

    /** Frees every reservation of a marked pool. */
    method FreeContents(q: Handle, ghost doomed: set<Handle>)
      requires Sound(store, doomed) && Fresh(store, next) && q in doomed && q in store.pools && store.pools[q].released
      requires forall y :: y in doomed ==> y <= q
      modifies this`store
      ensures Sound(store, doomed) && Fresh(store, next) && Freed(old(store), store, q)
      decreases next - q
    {
      hide Nested, Linked, Counted, Freed, FreedCut, Emptying;
      ghost var done: set<Handle> := {};
      var todo := store.pools[q].reservations;
      EmptyingBegins(store, q);
      while todo != {}
        invariant Sound(store, doomed) && Fresh(store, next) && Emptying(old(store), store, q, done, todo)
        invariant q in store.pools && store.pools[q].reservations == todo && store.pools[q].released
        decreases |todo|
      {
        var c :| c in todo;
        ListedIsLive(store, doomed, q, c);
        ghost var s := store;
        FreeCut(c, doomed);
        EmptyingStep(old(store), s, store, q, done, todo, c);
        EmptyingFacts(old(store), store, q, done + {c}, todo - {c});
        done := done + {c};
        todo := todo - {c};
      }
      EmptyingEnds(old(store), doomed, store, q, done);
    }

    /** `releasePeerMemory` on a reservation. */
    method ReleaseReservation(r: Handle) returns (done: Option<bool>)
      requires Valid()
      modifies this`store
      ensures Valid()
      ensures done == if r !in old(store).cuts then None else Some(!old(store).cuts[r].released)
      ensures done == Some(true) ==> FreedCut(old(store), store, r)
      ensures done != Some(true) ==> store == old(store)
    {
      if r !in store.cuts {
        return None;
      }
      if store.cuts[r].released {
        return Some(false);
      }
      LivePair(store, r);
      hide Nested, Linked, Counted, FreedCut;
      FreeCut(r, {});
      done := Some(true);
    }

    /** Marks a live pool and frees its contents. */
    method EmptyPool(q: Handle)
      requires Valid() && q in store.pools
      modifies this`store
      ensures Sound(store, {q}) && Fresh(store, next) && Freed(Marked(old(store), q), store, q)
    {
      hide Nested, Linked, Counted, Freed;
      MarkKeeps(store, {}, q);
      assert {} + {q} == {q};
      store := Marked(store, q);
      FreeContents(q, {q});
    }

    /** Drops the reservation an emptied pool was taken from. */
    method DropParent(q: Handle, r: Handle, ghost s0: Store)
      requires Sound(store, {q}) && Fresh(store, next) && Nested(s0) && q in s0.pools && !s0.pools[q].released
      requires s0.pools[q].parent == Some(r) && r in s0.cuts && !s0.cuts[r].released
      requires Freed(Marked(s0, q), store, q)
      modifies this`store
      ensures Sound(store, {q}) && Fresh(store, next) && FreedCut(s0, store, r)
    {
      hide Nested, Linked, Counted, Freed, FreedCut, Under;
      EitherEnd(s0, store, q, r);
      StillLive(s0, store, q, r);
      FreeCut(r, {q});
      DetachedEnd(old(store), store, r, q);
    }

    /** `releasePeerMemory` on a pool: its contents, then the reservation it was taken from.
        For a taken pool the result is that of releasing the reservation. */
    method ReleasePool(q: Handle) returns (done: Option<bool>)
      requires Valid()
      modifies this`store
      ensures Valid()
      ensures done == if q !in old(store).pools then None else Some(!old(store).pools[q].released)
      ensures done == Some(true) && old(store).pools[q].parent.Some? ==>
        FreedCut(old(store), store, old(store).pools[q].parent.value)
      ensures done == Some(true) && old(store).pools[q].parent.None? ==> Freed(Marked(old(store), q), store, q)
      ensures done != Some(true) ==> store == old(store)
    {
      if q !in store.pools {
        return None;
      }
      if store.pools[q].released {
        return Some(false);
      }
      hide Nested, Linked, Counted, Freed, FreedCut, Fresh;
      done := Some(true);
      var parent := store.pools[q].parent;
      if parent.Some? {
        PoolHasLiveCut(store, q);
      }
      EmptyPool(q);
      if parent.Some? {
        DropParent(q, parent.value, old(store));
      }
      RootOrGone(old(store), store, q);
      Undoom(store, {q}, q);
      assert {q} - {q} == {};
    }

    /** The validation half of a narrowing: nothing changes. */
    method CheckNarrow(plans: seq<Plan>) returns (ok: bool)
      ensures ok <==> MayNarrow(store, plans)
    {
      var seen: set<Handle> := {};
      for i := 0 to |plans|
        invariant forall j :: 0 <= j < i ==> MayResize(store, plans[j]) && plans[j].size <= MAX_U32
        invariant forall h :: h in seen <==> exists j :: 0 <= j < i && plans[j].handle == h
        invariant forall j, k :: 0 <= j < k < i ==> plans[j].handle != plans[k].handle
      {
        if !MayResize(store, plans[i]) || plans[i].size > MAX_U32 || plans[i].handle in seen {
          return false;
        }
        seen := seen + {plans[i].handle};
      }
      ok := true;
    }

    /** The publication half: every plan of a valid batch takes effect. */
    method PublishNarrow(plans: seq<Plan>)
      requires Valid() && MayNarrow(store, plans)
      modifies this`store
      ensures Valid()
      ensures store == Narrowed(old(store), plans)
    {
      hide Nested, Linked, Counted;
      for i := 0 to |plans|
        invariant Sound(store, {}) && Fresh(store, next)
        invariant store == Narrowed(old(store), plans[..i])
        invariant forall j :: i <= j < |plans| ==> MayResize(store, plans[j])
        invariant MayNarrow(old(store), plans)
      {
        ResizeKeeps(store, plans[i]);
        assert plans[..i + 1][..i] == plans[..i];
        store := Resized(store, plans[i]);
      }
      assert plans[..|plans|] == plans;
    }
  }

  ghost predicate Fresh(s: Store, next: Handle) {
    (forall p :: p in s.pools ==> p < next) && (forall r :: r in s.cuts ==> r < next)
  }

  lemma EmptyingBegins(s: Store, q: Handle)
    requires q in s.pools
    ensures Emptying(s, s, q, {}, s.pools[q].reservations)
  {
  }

  lemma EmptyingFacts(s0: Store, s: Store, q: Handle, done: set<Handle>, todo: set<Handle>)
    requires Emptying(s0, s, q, done, todo)
    ensures q in s.pools && s.pools[q].reservations == todo && s.pools[q].released == s0.pools[q].released
  {
  }

  lemma ListedIsLive(s: Store, doomed: set<Handle>, q: Handle, c: Handle)
    requires Nested(s) && Linked(s, doomed) && q in s.pools && c in s.pools[q].reservations
    requires forall y :: y in doomed ==> y <= q
    ensures c in s.cuts && !s.cuts[c].released && s.cuts[c].pool == q && q < c
    ensures s.cuts[c].child.Some? ==>
      && s.cuts[c].child.value in s.pools && !s.pools[s.cuts[c].child.value].released
      && s.cuts[c].child.value !in doomed
  {
    assert CutOf(s, q, c);
    CutFacts(s, c);
  }

  lemma LivePair(s: Store, r: Handle)
    requires Nested(s) && Linked(s, {}) && r in s.cuts && !s.cuts[r].released
    ensures s.cuts[r].child.Some? ==> s.cuts[r].child.value in s.pools && !s.pools[s.cuts[r].child.value].released
  {
    CutFacts(s, r);
  }

  lemma PoolHasLiveCut(s: Store, q: Handle)
    requires Nested(s) && Linked(s, {}) && q in s.pools && !s.pools[q].released && s.pools[q].parent.Some?
    ensures s.pools[q].parent.value in s.cuts && !s.cuts[s.pools[q].parent.value].released
  {
    assert ChildOf(s, s.pools[q].parent.value, q);
    assert Took(s, s.pools[q].parent.value, q);
  }

  lemma StillLive(s0: Store, s: Store, q: Handle, r: Handle)
    requires Nested(s0) && q in s0.pools && s0.pools[q].parent == Some(r) && r in s0.cuts && !s0.cuts[r].released
    requires Freed(Marked(s0, q), s, q)
    ensures r in s.cuts && !s.cuts[r].released && s.cuts[r].child == Some(q) && q in s.pools && s.pools[q].released
  {
    AboveIsNotBelow(s0, q, r);
    SameBelow(s0, Marked(s0, q), q, r);
  }

  lemma DetachedEnd(s2: Store, s: Store, r: Handle, q: Handle)
    requires FreedCut(s2, s, r) && s2.cuts[r].child == Some(q) && s2.pools[q].released
    ensures s == Detached(s2, r)
  {
  }

  lemma RootOrGone(s0: Store, s: Store, q: Handle)
    requires q in s0.pools
    requires s0.pools[q].parent.None? ==> Freed(Marked(s0, q), s, q)
    requires s0.pools[q].parent.Some? ==>
      && Nested(s0) && !s0.pools[q].released && s0.pools[q].parent.value in s0.cuts
      && !s0.cuts[s0.pools[q].parent.value].released && FreedCut(s0, s, s0.pools[q].parent.value)
    ensures q in s.pools && s.pools[q].reservations == {}
    ensures forall r: Handle :: ChildOf(s, r, q) ==> r in s.cuts && s.cuts[r].released
  {
    if s0.pools[q].parent.Some? {
      var r := s0.pools[q].parent.value;
      AboveIsNotBelow(s0, q, r);
      var s1 := Detached(s0, r);
      assert s.cuts[r] == FreedReservation(s1, q, r);
      assert s.pools[q] == FreedPool(s1, q, q);
    }
  }

  // ------------------------------------------------------------------ laws of the store

  /** In every pool, what is taken is reserved and what is reserved fits; a released pool
      holds nothing. */
  lemma PoolLaws(s: Store, p: Handle)
    requires Sound(s, {}) && p in s.pools
    ensures 0 <= s.pools[p].taken <= s.pools[p].reserved <= s.pools[p].capacity
    ensures s.pools[p].released ==> s.pools[p].reservations == {} && s.pools[p].reserved == 0
  {
    TakenWithin(s.cuts, s.pools[p].reservations);
    assert CountedAt(s, p);
    if s.pools[p].released {
      assert forall r :: r in s.pools[p].reservations ==> CutOf(s, p, r);
      NothingLeft(s, p);
    }
  }

  // ---------------------------------------------------------------------- narrowing

  ghost predicate MayNarrow(s: Store, plans: seq<Plan>) {
    && (forall i :: 0 <= i < |plans| ==> MayResize(s, plans[i]) && plans[i].size <= MAX_U32)
    && (forall i, j :: 0 <= i < j < |plans| ==> plans[i].handle != plans[j].handle)
  }

  function Narrowed(s: Store, plans: seq<Plan>): Store {
    if plans == [] then s else
    var s1 := Narrowed(s, plans[..|plans| - 1]);
    var plan := plans[|plans| - 1];
    if plan.handle in s1.cuts && s1.cuts[plan.handle].pool in s1.pools then Resized(s1, plan) else s1
  }

  /** What reservation `x` holds afterwards. */
  function Target(s: Store, plans: seq<Plan>, x: Handle): int
    requires x in s.cuts
  {
    if plans == [] then s.cuts[x].capacity
    else if plans[|plans| - 1].handle == x then plans[|plans| - 1].size
    else Target(s, plans[..|plans| - 1], x)
  }

  /** Narrowing changes sizes of planned reservations and nothing else about reservations. */
  lemma {:induction false} NarrowedIs(s: Store, plans: seq<Plan>, x: Handle)
    requires x in s.cuts && forall r :: r in s.cuts ==> s.cuts[r].pool in s.pools
    requires forall i :: 0 <= i < |plans| ==> plans[i].handle in s.cuts
    ensures Narrowed(s, plans).cuts.Keys == s.cuts.Keys && Narrowed(s, plans).pools.Keys == s.pools.Keys
    ensures Narrowed(s, plans).cuts[x] == s.cuts[x].(capacity := Target(s, plans, x))
  {
    if plans != [] {
      NarrowedIs(s, plans[..|plans| - 1], x);
      NarrowedIs(s, plans[..|plans| - 1], plans[|plans| - 1].handle);
    }
  }
}
