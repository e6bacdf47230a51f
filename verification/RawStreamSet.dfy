/**
 The index of raw streams by the low bits of their random ids, grown by rehashing.
 Keys are computed in 32-bit arithmetic by the source; once the prefix fills 32 bits that
 only rereads the key as a signed number, one to one, so keys are naturals here.
 */
module RawStreamSet {
  import opened Bits

  const IDS: nat := 0x1_0000_0000

  type Id = n: nat | n < IDS

  // ---- masking with a prefix 2^k - 1 ----

  /** 2^k - 1. */
  function Prefix(k: nat): nat
  {
    if k == 0 then 0 else 2 * Prefix(k - 1) + 1
  }

  lemma PrefixGrows(k: nat)
    ensures Prefix(k + 1) == 2 * (Prefix(k) + 1) - 1
  {
  }

  lemma OddMask(id: nat, m: nat)
    requires m >= 1
    ensures And(id, 2 * m - 1) == 2 * And(id / 2, m - 1) + id % 2
  {
  }

  /** Masking with 2^k - 1 gives a number below 2^k and keeps the numbers below it. */
  lemma {:induction false} MaskKeeps(n: nat, k: nat)
    ensures And(n, Prefix(k)) <= Prefix(k)
    ensures n <= Prefix(k) ==> And(n, Prefix(k)) == n
  {
    if k > 0 {
      PrefixGrows(k - 1);
      OddMask(n, Prefix(k - 1) + 1);
      MaskKeeps(n / 2, k - 1);
    }
  }

  /** The longer key determines the shorter one. */
  lemma {:induction false} MaskTwice(n: nat, k: nat)
    ensures And(And(n, Prefix(k + 1)), Prefix(k)) == And(n, Prefix(k))
  {
    if k > 0 {
      MaskTwice(n / 2, k - 1);
      MaskTwiceStep(n, k);
    }
  }

  lemma MaskTwiceStep(n: nat, k: nat)
    requires k > 0 && And(And(n / 2, Prefix(k)), Prefix(k - 1)) == And(n / 2, Prefix(k - 1))
    ensures And(And(n, Prefix(k + 1)), Prefix(k)) == And(n, Prefix(k))
  {
    hide And, Prefix;
    PrefixGrows(k - 1);
    PrefixGrows(k);
    var p, p' := Prefix(k - 1), Prefix(k);
    OddMask(n, p' + 1);
    OddMask(n, p + 1);
    var a, half := And(n, Prefix(k + 1)), And(n / 2, p');
    OddMask(a, p + 1);
    assert a == 2 * half + n % 2;
  }

  // ---- the table ----

  /** Every stream is stored under its masked id. */
  ghost predicate Keyed(streams: map<nat, Id>, prefix: nat)
  {
    forall key :: key in streams ==> And(streams[key], prefix) == key
  }

  lemma ValueRemoved(m: map<nat, Id>, key: nat)
    requires key in m && forall k :: k in m && m[k] == m[key] ==> k == key
    ensures (m - {key}).Values == m.Values - {m[key]} && |m - {key}| == |m| - 1
  {
    var next := m - {key};
    assert m.Keys == next.Keys + {key};
    forall v | v in m.Values && v != m[key]
      ensures v in next.Values
    {
      var k :| k in m && m[k] == v;
      assert next[k] == v;
    }
  }

  lemma ValueAdded(m: map<nat, Id>, key: nat, id: Id)
    requires key !in m && id !in m.Values
    ensures m[key := id].Values == m.Values + {id} && |m[key := id]| == |m| + 1
  {
    var next := m[key := id];
    assert next.Keys == m.Keys + {key};
    forall v | v in m.Values
      ensures v in next.Values
    {
      var k :| k in m && m[k] == v;
      assert next[k] == v;
    }
    assert next[key] == id;
  }

  /** No two streams share an id or a key. */
  lemma {:induction false} KeyedOneToOne(streams: map<nat, Id>, prefix: nat)
    requires Keyed(streams, prefix)
    ensures |streams.Values| == |streams|
  {
    hide And;
    if streams != map[] {
      var key :| key in streams;
      ValueRemoved(streams, key);
      KeyedOneToOne(streams - {key}, prefix);
    }
  }

  lemma {:induction false} UpTo(n: nat) returns (all: set<nat>)
    ensures |all| == n && forall i: nat :: i in all <==> i < n
  {
    if n == 0 {
      all := {};
    } else {
      var fewer := UpTo(n - 1);
      all := fewer + {n - 1};
    }
  }

  ghost predicate FreeId(streams: map<nat, Id>, prefix: nat, id: Id)
  {
    And(id, prefix) !in streams
  }

  lemma SubsetSize(a: set<nat>, b: set<nat>)
    requires a <= b
    ensures |a| <= |b| && (|a| == |b| ==> a == b)
  {
    assert b == a + (b - a);
  }

  /** With at most half of the table in use some id is free, unless all 2^32 ids are taken
      (a table that long can no longer spread its streams any further). */
  lemma FreeIdExists(streams: map<nat, Id>, k: nat)
    requires Keyed(streams, Prefix(k)) && 2 * |streams| <= Prefix(k) + 1
    ensures (exists id: Id :: FreeId(streams, Prefix(k), id)) <==> |streams| < IDS
  {
    if |streams| < IDS {
      var all := UpTo(if Prefix(k) + 1 < IDS then Prefix(k) + 1 else IDS);
      assert !(all <= streams.Keys) by {
        if all <= streams.Keys {
          SubsetSize(all, streams.Keys);
        }
      }
      var id: nat :| id in all && id !in streams;
      MaskKeeps(id, k);
      assert FreeId(streams, Prefix(k), id);
    } else {
      var all := UpTo(IDS);
      KeyedOneToOne(streams, Prefix(k));
      SubsetSize(streams.Values, all);
      forall id: Id
        ensures !FreeId(streams, Prefix(k), id)
      {
        assert id in streams.Values;
      }
    }
  }

  /** A rehash in progress: the streams under the keys in `todo` have yet to move. */
  ghost predicate Moved(streams: map<nat, Id>, next: map<nat, Id>, todo: set<nat>, k: nat)
  {
    && todo <= streams.Keys && Keyed(next, Prefix(k + 1)) && |next| + |todo| == |streams|
    && (forall key :: key in next ==> And(key, Prefix(k)) in streams && And(key, Prefix(k)) !in todo)
    && (forall key :: key in next ==> next[key] == streams[And(key, Prefix(k))])
    && (forall key :: key in streams && key !in todo ==> And(streams[key], Prefix(k + 1)) in next)
  }

  lemma MovedNone(streams: map<nat, Id>, k: nat)
    ensures Moved(streams, map[], streams.Keys, k)
  {
  }

  lemma MovedOne(streams: map<nat, Id>, next: map<nat, Id>, todo: set<nat>, k: nat, key: nat)
    requires Keyed(streams, Prefix(k)) && Moved(streams, next, todo, k) && key in todo
    ensures Moved(streams, next[And(streams[key], Prefix(k + 1)) := streams[key]], todo - {key}, k)
  {
    MaskTwice(streams[key], k);
    hide And, Prefix;
    assert And(streams[key], Prefix(k + 1)) !in next;
  }

  /** After rehashing, the live streams are the same and free ids are still free. */
  lemma MovedAll(streams: map<nat, Id>, next: map<nat, Id>, k: nat)
    requires Keyed(streams, Prefix(k)) && Moved(streams, next, {}, k)
    ensures Keyed(next, Prefix(k + 1)) && next.Values == streams.Values && |next| == |streams|
    ensures forall id: Id :: FreeId(streams, Prefix(k), id) ==> FreeId(next, Prefix(k + 1), id)
  {
    hide And, Prefix;
    forall key | key in streams
      ensures streams[key] in next.Values
    {
      MaskTwice(streams[key], k);
      assert next[And(streams[key], Prefix(k + 1))] == streams[key];
    }
    forall id: Id | FreeId(streams, Prefix(k), id)
      ensures FreeId(next, Prefix(k + 1), id)
    {
      MaskTwice(id, k);
    }
  }

  /** A free id is the id of no live stream, and storing it adds that stream alone. */
  lemma FreeIsNew(streams: map<nat, Id>, prefix: nat, id: Id)
    requires Keyed(streams, prefix) && FreeId(streams, prefix, id)
    ensures id !in streams.Values
    ensures var next := streams[And(id, prefix) := id];
            next.Values == streams.Values + {id} && Keyed(next, prefix) && |next| == |streams| + 1
  {
    hide And;
    ValueAdded(streams, And(id, prefix), id);
  }

  /** Deleting a live stream's key removes that stream alone. */
  lemma ClosedGone(streams: map<nat, Id>, prefix: nat, id: Id)
    requires Keyed(streams, prefix) && id in streams.Values
    ensures var next := streams - {And(id, prefix)};
            next.Values == streams.Values - {id} && Keyed(next, prefix) && |next| == |streams| - 1
  {
    hide And;
    assert And(id, prefix) in streams && streams[And(id, prefix)] == id;
    ValueRemoved(streams, And(id, prefix));
  }

  class Streams {
    var prefix: nat
    var streams: map<nat, Id>
    /** The prefix has this many bits. */
    ghost var bits: nat

    /** At most half of the table is in use. */
    ghost predicate Valid()
      reads this
    {
      prefix == Prefix(bits) && bits >= 4 && Keyed(streams, prefix) && 2 * |streams| <= prefix + 1
    }

    /** The ids of the live streams. */
    ghost function Live(): set<nat>
      reads this
    {
      streams.Values
    }

    constructor ()
      ensures Valid() && Live() == {} && prefix == 15
    {
      prefix, streams, bits := 15, map[], 4;
      new;
      assert Prefix(1) == 1 && Prefix(2) == 3 && Prefix(3) == 7;
    }

    /** The roll loop: the first free id among those the generator produces. */
    method Roll(rolls: seq<Id>) returns (id: Id)
      requires exists i :: 0 <= i < |rolls| && FreeId(streams, prefix, rolls[i])
      ensures FreeId(streams, prefix, id)
      ensures exists i :: 0 <= i < |rolls| && rolls[i] == id && forall j :: 0 <= j < i ==> !FreeId(streams, prefix, rolls[j])
    {
      var i := 0;
      while And(rolls[i], prefix) in streams
        invariant 0 <= i < |rolls|
        invariant forall j :: 0 <= j < i ==> !FreeId(streams, prefix, rolls[j])
        decreases |rolls| - i
      {
        i := i + 1;
      }
      id := rolls[i];
    }

    /** Growth: every stream moves to the key under the longer prefix, none is merged. */
    method Rehash()
      requires Valid()
      modifies this
      ensures Valid() && bits == old(bits) + 1 && prefix == 2 * old(prefix) + 1
      ensures Live() == old(Live()) && |streams| == |old(streams)| && 4 * |streams| <= prefix + 1
      ensures forall id: Id :: FreeId(old(streams), old(prefix), id) ==> FreeId(streams, prefix, id)
    {
      hide And, Prefix, Keyed, Moved, FreeId;
      PrefixGrows(bits);
      prefix, bits := 2 * prefix + 1, bits + 1;
      ghost var k := old(bits);
      var next: map<nat, Id>, todo := map[], streams.Keys;
      MovedNone(streams, k);
      while todo != {}
        invariant todo <= streams.Keys && Moved(streams, next, todo, k)
        invariant streams == old(streams) && prefix == Prefix(k + 1) && bits == k + 1
      {
        var key :| key in todo;
        var id := streams[key];
        MovedOne(streams, next, todo, k, key);
        next := next[And(id, prefix) := id];
        todo := todo - {key};
      }
      MovedAll(streams, next, k);
      streams := next;
    }

    /** `add`. */
    method Add(rolls: seq<Id>) returns (id: Id)
      requires Valid() && exists i :: 0 <= i < |rolls| && FreeId(streams, prefix, rolls[i])
      modifies this
      ensures Valid() && id !in old(Live()) && Live() == old(Live()) + {id} && |streams| == |old(streams)| + 1
      ensures And(id, prefix) in streams && streams[And(id, prefix)] == id
      ensures prefix == if 2 * |old(streams)| >= old(prefix) then 2 * old(prefix) + 1 else old(prefix)
      ensures prefix == old(prefix) ==> streams == old(streams)[And(id, prefix) := id]
      ensures exists i :: 0 <= i < |rolls| && rolls[i] == id
    {
      id := Roll(rolls);
      if 2 * |streams| >= prefix {
        Rehash();
      }
      FreeIsNew(streams, prefix, id);
      streams := streams[And(id, prefix) := id];
    }

    /** `onclose` of a live stream. */
    method Close(id: Id)
      requires Valid() && id in Live()
      modifies this
      ensures Valid() && Live() == old(Live()) - {id} && prefix == old(prefix)
      ensures streams == old(streams) - {And(id, prefix)}
    {
      ClosedGone(streams, prefix, id);
      streams := streams - {And(id, prefix)};
    }
  }
}
