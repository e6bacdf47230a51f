/**
 One direction of a circuit link from end to end.  The jobs the sender selects are sealed
 one after another with consecutive counters and written in batches; the receiver is given
 the bytes in chunks of any size, cuts them into cells, opens these and hands on the
 payloads in counter order.
 */
module LinkEnds {
  import opened Limits
  import opened Options
  import opened Frames
  import opened CellCodec
  import Reassembly
  import OrderedReceiver

  /** The jobs of a link and their padding: the k-th cell carries counter `initial + k`. */
  datatype Sending = Sending(aead: Aead, domain: seq<byte>, route: CellCodec.Route, initial: nat,
                             jobs: seq<seq<byte>>, paddings: seq<seq<byte>>)

  ghost predicate Fit(s: Sending)
  {
    && Lawful(s.aead) && Good(s.route) && |s.paddings| == |s.jobs|
    && (s.jobs != [] ==> s.initial + |s.jobs| - 1 <= MAX_COUNTER)
    && forall k :: 0 <= k < |s.jobs| ==> |s.jobs[k]| + |s.paddings[k]| == MAX_CELL_PAYLOAD
  }

  function PacketAt(s: Sending, k: nat): Option<seq<byte>>
    requires k < |s.jobs| == |s.paddings|
  {
    SealedPacket(s.aead, s.domain, s.route, s.jobs[k], Some(s.paddings[k]), Some(s.initial + k))
  }

  /** These are the cells of the jobs, in order. */
  ghost predicate Packed(s: Sending, packets: seq<seq<byte>>)
  {
    && |packets| == |s.jobs| == |s.paddings|
    && forall k :: 0 <= k < |packets| ==> PacketAt(s, k) == Some(packets[k])
  }

  lemma PacketOpens(s: Sending, packets: seq<seq<byte>>, k: nat)
    requires Fit(s) && Packed(s, packets) && k < |packets|
    ensures |packets[k]| == CELL_SIZE
    ensures var cell := OpenedPacket(s.aead, s.domain, s.route, packets[k]);
            cell.Some? && cell.value.counter == s.initial + k && cell.value.payload == s.jobs[k]
  {
    hide SealedPacket, OpenedPacket, Lawful, Good;
    assert PacketAt(s, k) == Some(packets[k]);
    OpenAfterSeal(s.aead, s.domain, s.route, s.jobs[k], s.paddings[k], s.initial + k);
  }

  // ---- the byte stream ----

  /** What the batches put on the wire, one after another. */
  function Written(batches: seq<seq<seq<byte>>>): seq<byte>
  {
    if batches == [] then [] else Written(batches[..|batches| - 1]) + Flat(batches[|batches| - 1])
  }

  /** Where one batch ends and the next begins does not show. */
  lemma {:induction false} BatchesAreOneStream(batches: seq<seq<seq<byte>>>)
    ensures Written(batches) == Flat(Gathered(batches))
  {
    if batches != [] {
      var n := |batches| - 1;
      BatchesAreOneStream(batches[..n]);
      FlatConcat(Gathered(batches[..n]), batches[n]);
    }
  }

  ghost predicate WholeCells(packets: seq<seq<byte>>)
  {
    forall k :: 0 <= k < |packets| ==> |packets[k]| == CELL_SIZE
  }

  /** The cells cut from the beginning of a stream of packets are the first packets. */
  lemma {:induction false} CellsArePackets(packets: seq<seq<byte>>, taken: seq<byte>)
    requires WholeCells(packets) && taken <= Flat(packets)
    ensures Reassembly.Cells(taken) <= packets && |Reassembly.Cells(taken)| == |taken| / CELL_SIZE
    decreases |packets|
  {
    if |taken| >= CELL_SIZE {
      var rest := packets[1..];
      assert forall k :: 0 <= k < |rest| ==> rest[k] == packets[k + 1];
      assert taken[..CELL_SIZE] == packets[0];
      assert taken[CELL_SIZE..] <= Flat(rest);
      CellsArePackets(rest, taken[CELL_SIZE..]);
      assert packets == [packets[0]] + rest;
    }
  }

  /** What the receiver cuts from the wire, in whatever chunks it came and in whatever
      batches it was written: the cells of the first jobs, which open to their payloads and
      counters. */
  lemma CellsAreJobs(s: Sending, batches: seq<seq<seq<byte>>>, taken: seq<byte>)
    requires Fit(s) && Packed(s, Gathered(batches)) && taken <= Written(batches)
    ensures var cells := Reassembly.Cells(taken);
      && cells <= Gathered(batches) && |cells| == |taken| / CELL_SIZE && |cells| <= |s.jobs|
      && forall k :: 0 <= k < |cells| ==>
        var cell := OpenedPacket(s.aead, s.domain, s.route, cells[k]);
        cell.Some? && cell.value.counter == s.initial + k && cell.value.payload == s.jobs[k]
  {
    hide OpenedPacket, Reassembly.Cells, Lawful, Good;
    var packets := Gathered(batches);
    BatchesAreOneStream(batches);
    forall k | 0 <= k < |packets|
      ensures |packets[k]| == CELL_SIZE
      ensures var cell := OpenedPacket(s.aead, s.domain, s.route, packets[k]);
              cell.Some? && cell.value.counter == s.initial + k && cell.value.payload == s.jobs[k]
    {
      PacketOpens(s, packets, k);
    }
    CellsArePackets(packets, taken);
  }

  // ---- opening and ordering ----

  /** The payloads of the first n jobs, by counter, and nothing else. */
  ghost predicate PushedJobs(s: Sending, pushed: map<nat, OrderedReceiver.Payload>, n: nat)
    requires n <= |s.jobs|
  {
    && (forall c :: c in pushed <==> s.initial <= c < s.initial + n)
    && (forall c :: c in pushed ==> pushed[c] == s.jobs[c - s.initial])
  }

  lemma RunIsJobs(s: Sending, pushed: map<nat, OrderedReceiver.Payload>, n: nat)
    requires n <= |s.jobs| && PushedJobs(s, pushed, n)
    ensures OrderedReceiver.Whole(pushed, s.initial, s.initial + n)
    ensures OrderedReceiver.Run(pushed, s.initial, s.initial + n) == s.jobs[..n]
  {
    var run := OrderedReceiver.Run(pushed, s.initial, s.initial + n);
    if n > 0 {
      OrderedReceiver.RunAt(pushed, s.initial, s.initial + n, 0);
    }
    forall k | 0 <= k < n ensures run[k] == s.jobs[k] {
      OrderedReceiver.RunAt(pushed, s.initial, s.initial + n, k);
    }
  }

  /** The receiver has been given the first n jobs, and has handed on exactly these. */
  ghost predicate InStep(s: Sending, receiver: OrderedReceiver.Receiver, n: nat)
    reads receiver
    requires n <= |s.jobs|
  {
    && receiver.Valid() && !receiver.destroyed && receiver.initial == s.initial && receiver.maximum == MAX_COUNTER
    && PushedJobs(s, receiver.pushed, n) && receiver.delivered == s.jobs[..n]
    && (n < |s.jobs| ==> !receiver.closed && receiver.next == s.initial + n)
  }

  /** While cells come in order, none is held back. */
  lemma NoneBuffered(s: Sending, receiver: OrderedReceiver.Receiver, n: nat)
    requires n < |s.jobs| && InStep(s, receiver, n)
    ensures receiver.buffer == map[] && receiver.gapStartedAt.None?
  {
    assert forall c :: c !in receiver.buffer;
  }

  /** What the receiver has handed on once the next job is in. */
  lemma NextInStep(s: Sending, receiver: OrderedReceiver.Receiver, n: nat)
    requires n < |s.jobs| && Fit(s) && receiver.Valid() && !receiver.destroyed
    requires receiver.initial == s.initial && receiver.maximum == MAX_COUNTER && PushedJobs(s, receiver.pushed, n + 1)
    requires receiver.closed ==> receiver.exhausted
    requires !receiver.closed ==> receiver.next > s.initial + n
    ensures InStep(s, receiver, n + 1)
  {
    hide OrderedReceiver.Run, Lawful, Good;
    RunIsJobs(s, receiver.pushed, n + 1);
    assert s.initial + n + 1 !in receiver.pushed;
    assert receiver.frontier == s.initial + n + 1;
  }

  /** `_openCell` for cells as they are cut from the wire: every one opens, every payload
      comes out as its cell comes in, and together they are the first jobs. */
  method HandOut(context: Context, receiver: OrderedReceiver.Receiver, output: array<byte>, cells: seq<seq<byte>>,
                 clock: OrderedReceiver.Clock, ghost s: Sending, ghost batches: seq<seq<seq<byte>>>, ghost taken: seq<byte>)
    returns (handed: seq<OrderedReceiver.Payload>)
    requires Fit(s) && Packed(s, Gathered(batches)) && taken <= Written(batches) && cells == Reassembly.Cells(taken)
    requires context.Valid() && !context.destroyed && output !in context.Scratch() && output.Length == CELL_BODY_SIZE
    requires context.aead == s.aead && context.domain == s.domain && context.route == s.route
    requires InStep(s, receiver, 0)
    modifies context, context.Scratch(), output, receiver
    ensures |cells| == |taken| / CELL_SIZE && |cells| <= |s.jobs| && handed == s.jobs[..|cells|]
    ensures !context.destroyed && InStep(s, receiver, |cells|)
  {
    hide OpenedPacket, Reassembly.Cells, Lawful, Good, Packed, OrderedReceiver.Run, PushedJobs;
    CellsAreJobs(s, batches, taken);
    handed := [];
    for n := 0 to |cells|
      invariant |cells| <= |s.jobs| && InStep(s, receiver, n) && handed == s.jobs[..n]
      invariant context.Valid() && !context.destroyed
    {
      var length := context.OpenInto(cells[n], output);
      var payload := output[2..2 + length.value];
      NoneBuffered(s, receiver, n);
      ghost var pushed := receiver.pushed;
      var r := receiver.Push(context.counter.value, payload, clock, clock);
      OneMore(s, pushed, n);
      NextInStep(s, receiver, n);
      handed := handed + r.payloads;
    }
  }

  lemma OneMore(s: Sending, pushed: map<nat, OrderedReceiver.Payload>, n: nat)
    requires n < |s.jobs| && PushedJobs(s, pushed, n)
    ensures PushedJobs(s, pushed[s.initial + n := s.jobs[n]], n + 1)
  {
  }
}
