/**
 The state of one logical route stream and the parts of its behaviour that do not
 depend on which side of the route it serves.  A source stream owns a physical leg;
 a destination stream shares its circuit with siblings.
 */
module Endpoint {
  import opened Frames

  datatype Phase = Unopened | Active | Destroying | Closed

  /** The writing half.  `written` is the history of bytes put into DATA frames. */
  datatype Sender = Sender(
    sendCredit: nat,
    circuitCredit: nat,
    circuitRequested: nat,
    circuitCanceling: bool,
    writing: bool,
    ended: bool,
    written: seq<byte>)

  /** The reading half.  `pushed` and `eof` are the history of what the reader was given. */
  datatype Receiver = Receiver(
    receiveCredit: nat,
    streamReturnPending: nat,
    outstanding: nat,
    queue: seq<seq<byte>>,
    delivered: bool,
    wantRead: bool,
    remoteEnded: bool,
    pushed: seq<byte>,
    eof: bool)

  datatype Stream = Stream(phase: Phase, tx: Sender, rx: Receiver, resetReceived: bool)

  const NEW_SENDER := Sender(STREAM_WINDOW, 0, 0, false, false, false, [])
  const NEW_RECEIVER := Receiver(STREAM_WINDOW, 0, 0, [], false, false, false, [], false)

  function Fresh(phase: Phase): Stream {
    Stream(phase, NEW_SENDER, NEW_RECEIVER, false)
  }

  /** Still able to keep what arrives. */
  predicate Receiving(e: Stream) {
    e.phase == Unopened || e.phase == Active
  }

  /** Still a leg of its circuit's send pool. */
  predicate Attached(e: Stream) {
    e.phase == Active || e.phase == Destroying
  }

  /** `_drain` of a live stream: hand at most one queued cell to a waiting reader, then
      end-of-stream once the queue is empty and the last cell has been consumed. */
  function Drain(r: Receiver): Receiver {
    var r1 :=
      if r.wantRead && r.queue != [] then
        r.(queue := r.queue[1..], wantRead := false, delivered := true, pushed := r.pushed + r.queue[0])
      else r;
    if r1.remoteEnded && r1.queue == [] && !r1.delivered then r1.(wantRead := false, eof := true) else r1
  }

  /** `receive` after the circuit charge, for a stream that takes the cell. */
  function Accept(r: Receiver, data: seq<byte>): Receiver
    requires r.receiveCredit > 0
  {
    Drain(r.(outstanding := r.outstanding + 1, receiveCredit := r.receiveCredit - 1,
             queue := r.queue + [data]))
  }

  predicate CanAccept(r: Receiver) {
    r.receiveCredit > 0 && |r.queue| < STREAM_WINDOW
  }

  /** The first half of `_read`: the cell delivered last has been consumed.  The amount is
      the stream credit that goes back to the peer now. */
  function Consume(r: Receiver): (Receiver, nat)
    requires r.delivered && r.outstanding > 0
  {
    var pending := r.streamReturnPending + 1;
    var r1 := r.(delivered := false, outstanding := r.outstanding - 1, streamReturnPending := pending);
    if pending >= STREAM_CREDIT_BATCH then
      (r1.(streamReturnPending := 0, receiveCredit := r.receiveCredit + pending), pending)
    else (r1, 0)
  }

  /** `remoteFin`. */
  function RemoteFin(e: Stream): Stream {
    if e.rx.remoteEnded then e else
    var r := e.rx.(remoteEnded := true);
    e.(rx := if e.phase == Active then Drain(r) else r)
  }

  /** `remoteReset`. */
  function RemoteReset(e: Stream): Stream {
    if e.phase != Active then e else e.(resetReceived := true, phase := Destroying)
  }

  /** The guard of `_requestCircuit`. */
  predicate WantsCircuit(t: Sender) {
    && !t.ended && t.sendCredit != 0 && !t.circuitCanceling
    && t.circuitRequested == 0 && t.circuitCredit <= CIRCUIT_WINDOW / 2
  }

  /** Whether `_destroy` announces itself with RESET. */
  predicate SendsReset(e: Stream) {
    !(e.tx.ended && e.rx.remoteEnded) && !e.resetReceived
  }

  /** What the application and its timers can make a stream do. */
  datatype Act =
    | StartWriting | Poll | Send(bytes: seq<byte>) | StopWriting
    | Idle | Final | Read | Fail | Teardown

  predicate Enabled(e: Stream, act: Act) {
    match act
    case StartWriting => e.phase == Active && !e.tx.ended && !e.tx.writing
    case Poll => e.phase == Active && e.tx.writing
    case Send(bytes) =>
      && e.phase == Active && e.tx.writing && e.tx.sendCredit != 0 && e.tx.circuitCredit != 0
      && 0 < |bytes| <= MAX_LOGICAL_PAYLOAD
    case StopWriting => e.tx.writing
    case Idle => e.phase == Active && !e.tx.writing
    case Final => e.phase == Active && !e.tx.ended && !e.tx.writing
    case Read => e.phase == Active && !e.rx.eof && !e.rx.wantRead
    case Fail => e.phase == Active
    case Teardown => e.phase == Destroying
  }

  /** Receive-side bookkeeping of a live stream: every cell of the stream window is free,
      held here, or consumed and not yet returned; the queue holds what is outstanding
      except the one cell the reader has in hand, and a waiting reader has drained it. */
  predicate Window(r: Receiver) {
    && r.receiveCredit + r.outstanding + r.streamReturnPending == STREAM_WINDOW
    && r.streamReturnPending < STREAM_CREDIT_BATCH
    && Tidy(r)
    && (r.wantRead ==> r.queue == [])
  }

  predicate Tidy(r: Receiver) {
    && r.outstanding == |r.queue| + (if r.delivered then 1 else 0)
    && (r.wantRead ==> !r.delivered)
  }

  /** All the bytes this side has received and kept, in order. */
  function Received(r: Receiver): seq<byte> {
    r.pushed + Flat(r.queue)
  }

  /** What draining never touches. */
  predicate SameWindow(r: Receiver, d: Receiver) {
    && d.receiveCredit == r.receiveCredit && d.streamReturnPending == r.streamReturnPending
    && d.outstanding == r.outstanding && d.remoteEnded == r.remoteEnded
  }

  lemma DrainMovesOneCell(r: Receiver)
    requires Tidy(r)
    ensures var d := Drain(r);
      && SameWindow(r, d) && Tidy(d) && (d.wantRead ==> d.queue == [])
      && Received(d) == Received(r)
      && r.pushed <= d.pushed
      && (d.eof && !r.eof ==> r.remoteEnded && d.queue == [])
  {
    if r.wantRead && r.queue != [] {
      assert r.pushed + Flat(r.queue) == r.pushed + r.queue[0] + Flat(r.queue[1..]);
    }
  }

  /** End-of-stream is given as soon as it is due: when the end has been announced, nothing is
      queued, and the cell handed out last has been consumed. */
  predicate Told(r: Receiver) {
    r.remoteEnded && r.queue == [] && !r.delivered ==> r.eof
  }

  /** A waiting reader gets the oldest cell at once, and is told of the end once it is due. */
  lemma DrainServes(r: Receiver)
    ensures var d := Drain(r);
      && Told(d) && (d.eof <==> r.eof || (r.remoteEnded && d.queue == [] && !d.delivered))
      && (r.wantRead && r.queue != [] ==>
            d.delivered && d.pushed == r.pushed + r.queue[0] && d.queue == r.queue[1..] && !d.wantRead)
      && (!r.wantRead || r.queue == [] ==> d.delivered == r.delivered && d.pushed == r.pushed && d.queue == r.queue)
      && (r.wantRead && r.queue == [] ==> d.wantRead || d.eof)
  {
  }

  /** A read hands out the oldest cell, or waits for the next one or the end. */
  lemma ReadServes(r: Receiver)
    requires Window(r)
    ensures var d := ReadNext(r).0;
      && Told(d)
      && (r.queue != [] ==> d.delivered && d.pushed == r.pushed + r.queue[0] && d.queue == r.queue[1..])
      && (r.queue == [] ==> !d.delivered && d.pushed == r.pushed && (d.wantRead || d.eof))
      && (r.queue == [] && r.remoteEnded ==> d.eof)
      && ReadNext(r).1 == if r.delivered && r.streamReturnPending + 1 >= STREAM_CREDIT_BATCH then r.streamReturnPending + 1 else 0
  {
  }

  /** A cell goes straight to a reader that waits, and otherwise to the end of the queue. */
  lemma AcceptServes(r: Receiver, data: seq<byte>)
    requires Window(r) && r.receiveCredit > 0 && !r.remoteEnded
    ensures var a := Accept(r, data);
      && a.eof == r.eof
      && if r.wantRead then a.delivered && a.pushed == r.pushed + data && a.queue == []
         else a.delivered == r.delivered && a.pushed == r.pushed && a.queue == r.queue + [data]
  {
    if r.wantRead {
      assert ([] + [data])[1..] == [];
    }
  }

  /** The end of the other side reaches a live reader that has nothing left to read. */
  lemma FinServes(e: Stream)
    ensures RemoteFin(e).rx.remoteEnded && RemoteFin(e).phase == e.phase && RemoteFin(e).tx == e.tx
    ensures e.phase == Active && !e.rx.remoteEnded ==> Told(RemoteFin(e).rx)
    ensures e.rx.queue == [] ==> RemoteFin(e).rx.pushed == e.rx.pushed
  {
  }

  lemma AcceptKeepsWindow(r: Receiver, data: seq<byte>)
    requires Window(r) && r.receiveCredit > 0
    ensures var a := Accept(r, data);
      && CanAccept(r)
      && Window(a)
      && a.receiveCredit == r.receiveCredit - 1 && a.outstanding == r.outstanding + 1
      && a.streamReturnPending == r.streamReturnPending && a.remoteEnded == r.remoteEnded
      && Received(a) == Received(r) + data
      && r.pushed <= a.pushed
      && (a.eof && !r.eof ==> r.remoteEnded && a.queue == [])
  {
    var r1 := r.(outstanding := r.outstanding + 1, receiveCredit := r.receiveCredit - 1,
                 queue := r.queue + [data]);
    DrainMovesOneCell(r1);
    FlatAppend(r.queue, data);
    assert r.pushed + (Flat(r.queue) + data) == r.pushed + Flat(r.queue) + data;
  }

  lemma FinKeepsWindow(r: Receiver)
    ensures var d := Drain(r.(remoteEnded := true));
      && (Window(r) ==> Window(d)) && d.remoteEnded
      && d.receiveCredit == r.receiveCredit && d.outstanding == r.outstanding && |d.queue| <= |r.queue|
      && d.streamReturnPending == r.streamReturnPending
  {
  }

  /** `_read` in full: consume, then drain. */
  function ReadNext(r: Receiver): (Receiver, nat)
    requires r.delivered ==> r.outstanding > 0
  {
    if r.delivered then
      var (r1, back) := Consume(r);
      (Drain(r1.(wantRead := true)), back)
    else (Drain(r.(wantRead := true)), 0)
  }

  lemma ReadKeepsWindow(r: Receiver)
    requires Window(r)
    ensures var (d, back) := ReadNext(r);
      && Window(d)
      && d.receiveCredit == r.receiveCredit + back && d.remoteEnded == r.remoteEnded
      && d.outstanding == r.outstanding - (if r.delivered then 1 else 0)
      && Received(d) == Received(r)
      && r.pushed <= d.pushed
      && (d.eof && !r.eof ==> r.remoteEnded && d.queue == [])
  {
    var r1 := if r.delivered then Consume(r).0 else r;
    DrainMovesOneCell(r1.(wantRead := true));
  }
}
