/**
 Logical frames of the private-routing transport and the arithmetic of FIFO channels
 that carry them.  Stream-level and circuit-level CREDIT are two constructors because
 the wire distinguishes them by stream id.
 */
module Frames {

  const STREAM_WINDOW: nat := 512
  const CIRCUIT_WINDOW: nat := 2048
  const STREAM_CREDIT_BATCH: nat := 128
  const CIRCUIT_CREDIT_BATCH: nat := 32
  const MAX_LOGICAL_PAYLOAD: nat := 1141

  type byte = b: int | 0 <= b < 256

  /** `Malformed` stands for every payload that `decodeLogical` rejects or that names a
      stream id its receiver does not serve. */
  datatype Frame =
    | Data(bytes: seq<byte>)
    | Open
    | Fin
    | Reset
    | StreamCredit(amount: nat)
    | CircuitCredit(amount: nat)
    | Demand(amount: nat)
    | Release(amount: nat)
    | Malformed

  /** The payload rules of `validLogicalPayload`. */
  predicate WellFormed(f: Frame) {
    match f
    case Data(bytes) => |bytes| <= MAX_LOGICAL_PAYLOAD
    case StreamCredit(n) => 1 <= n <= STREAM_WINDOW
    case CircuitCredit(n) => 1 <= n <= CIRCUIT_WINDOW
    case Demand(n) => n <= CIRCUIT_WINDOW
    case Release(n) => 1 <= n <= CIRCUIT_WINDOW
    case Malformed => false
    case _ => true
  }

  /** What one frame contributes to each conserved quantity. */
  datatype Kind = Cell | StreamGrant | CircuitGrant | Released | Wanted | Cancels | Fins

  function Weight(k: Kind, f: Frame): nat {
    match k
    case Cell => if f.Data? then 1 else 0
    case StreamGrant => if f.StreamCredit? then f.amount else 0
    case CircuitGrant => if f.CircuitCredit? then f.amount else 0
    case Released => if f.Release? then f.amount else 0
    case Wanted => if f.Demand? then f.amount else 0
    case Cancels => if f == Demand(0) then 1 else 0
    case Fins => if f.Fin? then 1 else 0
  }

  function Total(k: Kind, ch: seq<Frame>): nat {
    if ch == [] then 0 else Weight(k, ch[0]) + Total(k, ch[1..])
  }

  lemma {:induction false} TotalConcat(k: Kind, a: seq<Frame>, b: seq<Frame>)
    ensures Total(k, a + b) == Total(k, a) + Total(k, b)
  {
    if a == [] {
      assert a + b == b;
    } else {
      assert (a + b)[1..] == a[1..] + b;
      TotalConcat(k, a[1..], b);
    }
  }

  /** Appending to a channel, for every quantity at once. */
  lemma Appended(a: seq<Frame>, b: seq<Frame>)
    ensures forall k :: Total(k, a + b) == Total(k, a) + Total(k, b)
  {
    forall k ensures Total(k, a + b) == Total(k, a) + Total(k, b) {
      TotalConcat(k, a, b);
    }
  }

  lemma Pushed(ch: seq<Frame>, f: Frame)
    ensures forall k :: Total(k, ch + [f]) == Total(k, ch) + Weight(k, f)
  {
    Appended(ch, [f]);
    assert [f][1..] == [];
    forall k ensures Total(k, [f]) == Weight(k, f) {
    }
  }

  /** The payload bytes a channel carries, in order. */
  function Bytes(ch: seq<Frame>): seq<byte> {
    if ch == [] then [] else (if ch[0].Data? then ch[0].bytes else []) + Bytes(ch[1..])
  }

  lemma {:induction false} BytesConcat(a: seq<Frame>, b: seq<Frame>)
    ensures Bytes(a + b) == Bytes(a) + Bytes(b)
  {
    if a == [] {
      assert a + b == b;
    } else {
      assert (a + b)[1..] == a[1..] + b;
      BytesConcat(a[1..], b);
    }
  }

  lemma PoppedBytes(ch: seq<Frame>)
    requires ch != []
    ensures ch[0].Data? ==> Bytes(ch) == ch[0].bytes + Bytes(ch[1..])
    ensures !ch[0].Data? ==> Bytes(ch) == Bytes(ch[1..])
  {
  }

  lemma {:induction false} NoCellsNoBytes(ch: seq<Frame>)
    requires Total(Cell, ch) == 0
    ensures Bytes(ch) == []
  {
    if ch != [] {
      NoCellsNoBytes(ch[1..]);
    }
  }

  function Flat(queue: seq<seq<byte>>): seq<byte> {
    if queue == [] then [] else queue[0] + Flat(queue[1..])
  }

  lemma Adjoining(s: seq<byte>, i: nat, j: nat, k: nat)
    requires i <= j <= k <= |s|
    ensures s[i..j] + s[j..k] == s[i..k]
  {
  }

  /** All the cells of several bursts or batches, in order. */
  function Gathered(bursts: seq<seq<seq<byte>>>): seq<seq<byte>> {
    if bursts == [] then [] else Gathered(bursts[..|bursts| - 1]) + bursts[|bursts| - 1]
  }

  lemma {:induction false} FlatConcat(a: seq<seq<byte>>, b: seq<seq<byte>>)
    ensures Flat(a + b) == Flat(a) + Flat(b)
  {
    if a == [] {
      assert a + b == b;
    } else {
      assert (a + b)[1..] == a[1..] + b;
      FlatConcat(a[1..], b);
    }
  }

  lemma {:induction false} FlatAppend(queue: seq<seq<byte>>, data: seq<byte>)
    ensures Flat(queue + [data]) == Flat(queue) + data
  {
    if queue == [] {
      assert queue + [data] == [data];
    } else {
      assert (queue + [data])[1..] == queue[1..] + [data];
      FlatAppend(queue[1..], data);
    }
  }

  /** Nothing of kind `k` follows a frame of kind `mark`. */
  predicate NoneAfter(mark: Kind, k: Kind, ch: seq<Frame>) {
    ch == [] || ((Weight(mark, ch[0]) > 0 ==> Total(k, ch[1..]) == 0) && NoneAfter(mark, k, ch[1..]))
  }

  lemma {:induction false} NoneAfterPush(mark: Kind, k: Kind, ch: seq<Frame>, f: Frame)
    requires NoneAfter(mark, k, ch)
    requires Weight(k, f) == 0 || Total(mark, ch) == 0
    ensures NoneAfter(mark, k, ch + [f])
  {
    if ch == [] {
      assert ch + [f] == [f];
    } else {
      assert (ch + [f])[1..] == ch[1..] + [f];
      NoneAfterPush(mark, k, ch[1..], f);
      Pushed(ch[1..], f);
    }
  }

  lemma Empty(ch: seq<Frame>)
    requires |ch| == 0
    ensures forall k :: Total(k, ch) == 0
    ensures forall mark, k :: NoneAfter(mark, k, ch)
  {
  }

  /** The cells sent or released after the demand a channel carries. */
  function SpentAfterDemand(ch: seq<Frame>): nat {
    if ch == [] then 0
    else if Weight(Wanted, ch[0]) > 0 then Total(Cell, ch[1..]) + Total(Released, ch[1..])
    else SpentAfterDemand(ch[1..])
  }

  lemma {:induction false} SpentAfterPush(ch: seq<Frame>, f: Frame)
    ensures Total(Wanted, ch) > 0 ==>
      SpentAfterDemand(ch + [f]) == SpentAfterDemand(ch) + Weight(Cell, f) + Weight(Released, f)
    ensures Total(Wanted, ch) == 0 ==> SpentAfterDemand(ch + [f]) == 0
  {
    if ch == [] {
      assert ch + [f] == [f];
    } else {
      assert (ch + [f])[1..] == ch[1..] + [f];
      SpentAfterPush(ch[1..], f);
      Pushed(ch[1..], f);
    }
  }

  /** Taking the oldest frame off a channel, for every quantity and order at once. */
  lemma Popped(ch: seq<Frame>)
    requires ch != []
    ensures forall k :: Total(k, ch) == Weight(k, ch[0]) + Total(k, ch[1..])
    ensures forall mark, k :: NoneAfter(mark, k, ch) ==>
      NoneAfter(mark, k, ch[1..]) && (Weight(mark, ch[0]) > 0 ==> Total(k, ch[1..]) == 0)
    ensures SpentAfterDemand(ch) ==
      if Weight(Wanted, ch[0]) > 0 then Total(Cell, ch[1..]) + Total(Released, ch[1..]) else SpentAfterDemand(ch[1..])
  {
  }

  /** The sum of a circuit-level channel, which carries only credit amounts. */
  function Sum(amounts: seq<nat>): nat {
    if amounts == [] then 0 else amounts[0] + Sum(amounts[1..])
  }

  lemma {:induction false} SumAppend(amounts: seq<nat>, n: nat)
    ensures Sum(amounts + [n]) == Sum(amounts) + n
  {
    if amounts == [] {
      assert amounts + [n] == [n];
    } else {
      assert (amounts + [n])[1..] == amounts[1..] + [n];
      SumAppend(amounts[1..], n);
    }
  }
}
