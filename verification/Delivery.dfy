/**
 What the reader of a logical stream is given, in honest runs: always a prefix of what
 the other end wrote, and end-of-stream only after all of it.  One direction of a route
 is a writer, a channel to the entry, the entry's FIN mark, a channel to the reader's
 side, and a reader; the same law serves both directions.
 */
module Delivery {
  import opened Frames
  import opened Endpoint
  import opened SharedCircuit
  import opened SourceLeg
  import opened CircuitRuns
  import opened HonestRuns

  /** `keeps`: the reader's side still keeps what arrives; `joined`: the entry still passes
      frames on. */
  datatype Pipe = Pipe(
    w: Sender,
    first: seq<Frame>,
    mark: bool,
    second: seq<Frame>,
    r: Receiver,
    keeps: bool,
    joined: bool)

  function Forward(s: Slot, seat: Seat): Pipe {
    Pipe(seat.source.e.tx, seat.source.up, s.rec.sourceEnded, s.fwd, s.dst.rx, Receiving(s.dst), s.rec.live)
  }

  function Reverse(s: Slot, seat: Seat): Pipe {
    Pipe(s.dst.tx, s.bwd, EntryRecord(s, seat).destinationEnded, seat.source.down, seat.source.e.rx,
         seat.source.e.phase == Active, s.rec.live)
  }

  predicate Flows(p: Pipe) {
    && p.r.pushed <= p.w.written
    && (p.r.eof ==> p.r.pushed == p.w.written && p.w.ended)
    && (p.mark ==> p.w.ended)
    && (p.keeps ==> Arrived(p) <= p.w.written)
    && (p.keeps && p.mark ==> p.w.written == Arrived(p))
    && (p.keeps && p.joined ==> p.w.written == Arrived(p) + Bytes(p.first))
  }

  /** What has passed the entry. */
  function Arrived(p: Pipe): seq<byte> {
    Received(p.r) + Bytes(p.second)
  }

  // ---------------------------------------------------------- moves along a pipe

  lemma WriteFlows(p: Pipe, data: seq<byte>, w: Sender)
    requires Flows(p) && !p.w.ended && w.written == p.w.written + data && !w.ended
    ensures Flows(p.(w := w, first := p.first + [Data(data)]))
  {
    BytesConcat(p.first, [Data(data)]);
    assert Bytes([Data(data)]) == data;
    assert Arrived(p) + Bytes(p.first) + data == Arrived(p) + (Bytes(p.first) + data);
  }

  /** Frames without payload change no bytes. */
  lemma IdleFrame(ch: seq<Frame>, f: Frame)
    requires !f.Data?
    ensures Bytes(ch + [f]) == Bytes(ch)
  {
    BytesConcat(ch, [f]);
    assert Bytes([f]) == [];
  }

  lemma PassFlows(p: Pipe)
    requires Flows(p) && p.joined && !p.mark && p.first != [] && p.first[0].Data?
    ensures Flows(p.(first := p.first[1..], second := p.second + [p.first[0]]))
  {
    var f := p.first[0];
    BytesConcat(p.second, [f]);
    assert Bytes([f]) == f.bytes;
    assert Received(p.r) + (Bytes(p.second) + f.bytes) == Arrived(p) + f.bytes;
    assert Arrived(p) + (f.bytes + Bytes(p.first[1..])) == Arrived(p) + f.bytes + Bytes(p.first[1..]);
  }

  lemma MarkFlows(p: Pipe)
    requires Flows(p) && p.joined && p.w.ended && p.first != [] && p.first[0].Fin?
    requires Total(Cell, p.first[1..]) == 0
    ensures Flows(p.(first := p.first[1..], second := p.second + [Fin], mark := true))
  {
    IdleFrame(p.second, Fin);
    NoCellsNoBytes(p.first[1..]);
    assert Arrived(p) + [] == Arrived(p);
  }

  lemma TakeFlows(p: Pipe)
    requires Flows(p) && p.keeps && p.second != [] && p.second[0].Data?
    requires Window(p.r) && p.r.receiveCredit > 0 && !p.r.remoteEnded
    ensures Flows(p.(second := p.second[1..], r := Accept(p.r, p.second[0].bytes)))
  {
    hide Bytes, Accept, Total;
    PoppedBytes(p.second);
    var data := p.second[0].bytes;
    AcceptKeepsWindow(p.r, data);
    var q := p.(second := p.second[1..], r := Accept(p.r, data));
    assert Received(p.r) + (data + Bytes(p.second[1..])) == Received(p.r) + data + Bytes(p.second[1..]);
    assert Arrived(q) == Arrived(p);
    assert q.r.pushed <= Received(q.r) <= Arrived(q);
  }

  /** Draining hands over what is queued; at the end it is all there is. */
  lemma DrainFlows(p: Pipe, r: Receiver)
    requires Flows(p) && p.keeps && Tidy(r) && Received(r) == Received(p.r) && r.pushed == p.r.pushed && r.eof == p.r.eof
    requires r.remoteEnded ==> p.mark && Total(Cell, p.second) == 0
    ensures Flows(p.(r := Drain(r)))
  {
    hide Bytes, Drain, Tidy;
    DrainMovesOneCell(r);
    var q := p.(r := Drain(r));
    assert q.r.pushed <= Received(q.r) <= Arrived(q);
    if q.r.eof && !p.r.eof {
      NoCellsNoBytes(p.second);
      assert q.r.pushed + [] == q.r.pushed;
    }
  }

  /** The two ends of a pipe may give up at any time. */
  lemma LossFlows(p: Pipe, q: Pipe)
    requires Flows(p) && q.w.written == p.w.written && (p.w.ended ==> q.w.ended) && q.r.pushed == p.r.pushed && q.r.eof == p.r.eof
    requires q.mark == p.mark && (q.keeps ==> p.keeps) && (q.joined ==> p.joined)
    requires q.keeps ==> Arrived(q) == Arrived(p)
    requires q.joined ==> Bytes(q.first) == Bytes(p.first)
    ensures Flows(q)
  {
    hide Bytes, Flat, Received;
  }

  // ------------------------------------------------------- one leg and its slot

  predicate Carried(s: Slot, seat: Seat) {
    Flows(Forward(s, seat)) && Flows(Reverse(s, seat))
  }

  /** The source's writing half says nothing new to the reader at the other end. */
  predicate Quiet(p: Source, q: Source) {
    && Bytes(q.up) == Bytes(p.up) && q.e.tx.written == p.e.tx.written && q.e.tx.ended == p.e.tx.ended
    && q.e.rx == p.e.rx && q.e.phase == p.e.phase && q.down == p.down
  }

  lemma RequestQuiet(p: Source)
    ensures Quiet(p, Request(p))
  {
    if p.e.phase == Active && WantsCircuit(p.e.tx) {
      IdleFrame(p.up, Demand(CIRCUIT_WINDOW - p.e.tx.circuitCredit));
    }
  }

  lemma RelinquishQuiet(p: Source)
    ensures Quiet(p, Relinquish(p))
  {
    IdleFrame(p.up, Demand(0));
    IdleFrame(CancelDemand(p).up, Release(p.e.tx.circuitCredit));
  }

  lemma ReturnQuiet(p: Source, amount: nat, flush: bool)
    ensures Quiet(p, ReturnCircuit(p, amount, flush))
  {
    IdleFrame(p.up, CircuitCredit(p.circuitReturn + amount));
  }

  /** Both directions when the source changes but no byte moves. */
  lemma QuietCarries(s: Slot, seat: Seat, q: Source)
    requires Carried(s, seat) && Quiet(seat.source, q)
    ensures Carried(s, seat.(source := q))
  {
    hide Bytes, Flat;
    hide Flows;
    LossFlows(Forward(s, seat), Forward(s, seat.(source := q)));
    LossFlows(Reverse(s, seat), Reverse(s, seat.(source := q)));
  }

  // The source hears a frame.

  lemma HearIdleCarries(s: Slot, seat: Seat)
    requires Carried(s, seat) && seat.source.down != [] && Hear(seat.source).Took?
    requires var f := seat.source.down[0]; f.CircuitCredit? || f.Demand? || f.StreamCredit?
    ensures Carried(s, seat.(source := Hear(seat.source).source))
  {
    hide Bytes, Flat, Total, Relinquish, Request;
    PoppedBytes(seat.source.down);
    hide Flows;
    var p := seat.source;
    var q := p.(down := p.down[1..]);
    LossFlows(Reverse(s, seat), Reverse(s, seat.(source := q)));
    var t := p.e.tx;
    var n := p.down[0].amount;
    if p.e.phase == Active {
      match p.down[0]
      case CircuitCredit(_) =>
        var q1 := q.(e := p.e.(tx := t.(circuitRequested := t.circuitRequested - n, circuitCredit := t.circuitCredit + n)));
        RelinquishQuiet(q1);
      case Demand(_) =>
        var q1 := q.(e := p.e.(tx := t.(circuitCanceling := false, circuitRequested := 0)));
        RelinquishQuiet(q1);
        RequestQuiet(q1);
      case StreamCredit(_) =>
        RequestQuiet(q.(e := p.e.(tx := t.(sendCredit := t.sendCredit + n))));
    }
    QuietCarries(s, seat.(source := q), Hear(p).source);
  }

  lemma HearDataCarries(s: Slot, seat: Seat)
    requires Carried(s, seat) && LegInv(EntryRecord(s, seat), EntryLeg(s, seat), seat.source)
    requires seat.source.down != [] && seat.source.down[0].Data? && Hear(seat.source).Took?
    ensures Carried(s, seat.(source := Hear(seat.source).source))
  {
    hide Bytes, Flat, Total, NoneAfter, SpentAfterDemand, Accept, ReturnCircuit, Dialogue, Credits;
    Popped(seat.source.down);
    PoppedBytes(seat.source.down);
    hide Flows;
    var p := seat.source;
    if p.e.phase == Active {
      assert !p.e.rx.remoteEnded && p.e.rx.receiveCredit > 0;
      TakeFlows(Reverse(s, seat));
    } else {
      var q := p.(down := p.down[1..], circuitReceive := p.circuitReceive - 1);
      LossFlows(Reverse(s, seat), Reverse(s, seat.(source := q)));
      ReturnQuiet(q, 1, false);
      QuietCarries(s, seat.(source := q), Hear(p).source);
    }
  }

  lemma HearEndCarries(s: Slot, seat: Seat)
    requires Carried(s, seat) && LegInv(EntryRecord(s, seat), EntryLeg(s, seat), seat.source)
    requires seat.source.down != [] && (seat.source.down[0].Fin? || seat.source.down[0].Reset?)
    ensures Carried(s, seat.(source := Hear(seat.source).source))
  {
    hide Bytes, Flat, Total, NoneAfter, SpentAfterDemand, Drain, Dialogue, Credits;
    Popped(seat.source.down);
    PoppedBytes(seat.source.down);
    hide Flows;
    var p := seat.source;
    var q := p.(down := p.down[1..]);
    LossFlows(Reverse(s, seat), Reverse(s, seat.(source := q)));
    if p.down[0].Fin? && p.e.phase == Active && !p.e.rx.remoteEnded {
      DrainFlows(Reverse(s, seat.(source := q)), p.e.rx.(remoteEnded := true));
    } else {
      LossFlows(Reverse(s, seat.(source := q)), Reverse(s, seat.(source := Hear(p).source)));
    }
  }

  lemma HearCarries(s: Slot, seat: Seat)
    requires Carried(s, seat) && LegInv(EntryRecord(s, seat), EntryLeg(s, seat), seat.source)
    requires seat.source.down != [] && Hear(seat.source).Took?
    ensures Carried(s, seat.(source := Hear(seat.source).source))
  {
    hide Carried, LegInv;
    match seat.source.down[0]
    case Data(_) => HearDataCarries(s, seat);
    case Fin => HearEndCarries(s, seat);
    case Reset => HearEndCarries(s, seat);
    case CircuitCredit(_) => HearIdleCarries(s, seat);
    case Demand(_) => HearIdleCarries(s, seat);
    case StreamCredit(_) => HearIdleCarries(s, seat);
    case _ =>
  }

  // The source acts.

  lemma SendCarries(s: Slot, seat: Seat, bytes: seq<byte>)
    requires Carried(s, seat) && Enabled(seat.source.e, Send(bytes)) && !seat.source.e.tx.ended
    ensures Carried(s, seat.(source := Perform(seat.source, Send(bytes)).source))
  {
    hide Bytes, Flat;
    hide Flows;
    var q := Perform(seat.source, Send(bytes)).source;
    WriteFlows(Forward(s, seat), bytes, q.e.tx);
  }

  lemma FinalCarries(s: Slot, seat: Seat)
    requires Carried(s, seat) && Enabled(seat.source.e, Final)
    ensures Carried(s, seat.(source := Perform(seat.source, Final).source))
  {
    hide Bytes, Flat, Relinquish;
    hide Flows;
    var p := seat.source;
    var p1 := p.(e := p.e.(tx := p.e.tx.(ended := true)));
    RelinquishQuiet(p1);
    var q := Perform(p, Final).source;
    IdleFrame(Relinquish(p1).up, Fin);
    LossFlows(Forward(s, seat), Forward(s, seat.(source := q)));
    LossFlows(Reverse(s, seat), Reverse(s, seat.(source := q)));
  }

  lemma SourceReadCarries(s: Slot, seat: Seat)
    requires Carried(s, seat) && LegInv(EntryRecord(s, seat), EntryLeg(s, seat), seat.source)
    requires Enabled(seat.source.e, Read) && Perform(seat.source, Read).Took?
    ensures Carried(s, seat.(source := Perform(seat.source, Read).source))
  {
    hide Bytes, Flat, Total, NoneAfter, SpentAfterDemand, Drain, ReturnCircuit, Dialogue, Credits;
    hide Flows;
    var p := seat.source;
    var r := p.e.rx;
    var r1 := if r.delivered then Consume(r).0 else r;
    DrainFlows(Reverse(s, seat), r1.(wantRead := true));
    var (d, back) := ReadNext(r);
    IdleFrame(p.up, StreamCredit(back));
    var q := p.(e := p.e.(rx := d), up := if back == 0 then p.up else p.up + [StreamCredit(back)]);
    LossFlows(Forward(s, seat), Forward(s, seat.(source := q)));
    assert Carried(s, seat.(source := q));
    ReturnQuiet(q, 1, false);
    if r.delivered {
      QuietCarries(s, seat.(source := q), ReturnCircuit(q, 1, false));
    }
  }

  lemma QuitCarries(s: Slot, seat: Seat, act: Act)
    requires Carried(s, seat) && Enabled(seat.source.e, act) && (act.Fail? || act.Teardown?)
    requires Perform(seat.source, act).Took?
    ensures Carried(s, seat.(source := Perform(seat.source, act).source))
  {
    hide Bytes, Flat, ReturnCircuit;
    hide Flows;
    var p := seat.source;
    var q := Perform(p, act).source;
    if act.Teardown? {
      IdleFrame(p.up, Reset);
      var q1 := p.(e := p.e.(phase := Closed, rx := p.e.rx.(queue := [], outstanding := 0)),
                   up := if SendsReset(p.e) then p.up + [Reset] else p.up);
      ReturnQuiet(q1, p.e.rx.outstanding, true);
    }
    LossFlows(Forward(s, seat), Forward(s, seat.(source := q)));
    LossFlows(Reverse(s, seat), Reverse(s, seat.(source := q)));
  }

  lemma PerformCarries(s: Slot, seat: Seat, act: Act)
    requires Carried(s, seat) && LegInv(EntryRecord(s, seat), EntryLeg(s, seat), seat.source)
    requires Perform(seat.source, act).Took?
    ensures Carried(s, seat.(source := Perform(seat.source, act).source))
  {
    hide Carried, Credits, Windows, Dialogue;
    var p := seat.source;
    if Enabled(p.e, act) {
      match act
      case Send(bytes) => SendCarries(s, seat, bytes);
      case Final => FinalCarries(s, seat);
      case Read => SourceReadCarries(s, seat);
      case Fail => QuitCarries(s, seat, act);
      case Teardown => QuitCarries(s, seat, act);
      case Poll =>
        RelinquishQuiet(p);
        RequestQuiet(p);
        QuietCarries(s, seat, Perform(p, act).source);
      case Idle =>
        RelinquishQuiet(p);
        QuietCarries(s, seat, Perform(p, act).source);
      case StartWriting => QuietCarries(s, seat, Perform(p, act).source);
      case StopWriting => QuietCarries(s, seat, Perform(p, act).source);
    } else {
      QuietCarries(s, seat, p);
    }
  }

  // The entry takes a frame from the source.

  lemma UpDataCarries(s: Slot, g: Shared, seat: Seat)
    requires Carried(s, seat) && s.rec.live && seat.source.up != [] && seat.source.up[0].Data?
    requires FromSource(s, g, seat.source.up[0], false).Done?
    ensures var o := FromSource(s, g, seat.source.up[0], false);
      Carried(o.slot, seat.(source := TakenUp(seat.source, o.out)))
  {
    hide Bytes, Flat, Total, Received;
    PoppedBytes(seat.source.up);
    hide Flows;
    PassFlows(Forward(s, seat));
    assert seat.source.down + [] == seat.source.down;
  }

  lemma UpFinCarries(s: Slot, g: Shared, seat: Seat)
    requires Carried(s, seat) && s.rec.live && LegInv(s.rec, s.leg, seat.source)
    requires seat.source.up != [] && seat.source.up[0].Fin?
    ensures var o := FromSource(s, g, seat.source.up[0], false);
      o.Done? && Carried(o.slot, seat.(source := TakenUp(seat.source, o.out)))
  {
    hide Bytes, Flat, Total, NoneAfter, SpentAfterDemand, Received, Dialogue, Credits;
    Popped(seat.source.up);
    PoppedBytes(seat.source.up);
    hide Flows;
    MarkFlows(Forward(s, seat));
    assert seat.source.down + [] == seat.source.down;
  }

  lemma UpForwardCarries(s: Slot, g: Shared, seat: Seat)
    requires Carried(s, seat) && s.rec.live && seat.source.up != []
    requires seat.source.up[0].Reset? || seat.source.up[0].StreamCredit?
    requires FromSource(s, g, seat.source.up[0], false).Done?
    ensures var o := FromSource(s, g, seat.source.up[0], false);
      Carried(o.slot, seat.(source := TakenUp(seat.source, o.out)))
  {
    hide Bytes, Flat, Total, Received;
    PoppedBytes(seat.source.up);
    hide Flows;
    var p := seat.source;
    var o := FromSource(s, g, p.up[0], false);
    var seat' := seat.(source := TakenUp(p, o.out));
    IdleFrame(s.fwd, p.up[0]);
    assert p.down + [] == p.down;
    LossFlows(Forward(s, seat), Forward(o.slot, seat'));
    LossFlows(Reverse(s, seat), Reverse(o.slot, seat'));
  }

  lemma UpControlCarries(s: Slot, g: Shared, seat: Seat)
    requires Carried(s, seat) && s.rec.live && seat.source.up != []
    requires var f := seat.source.up[0]; f.CircuitCredit? || f.Demand? || f.Release?
    requires FromSource(s, g, seat.source.up[0], false).Done?
    ensures var o := FromSource(s, g, seat.source.up[0], false);
      Carried(o.slot, seat.(source := TakenUp(seat.source, o.out)))
  {
    hide Bytes, Flat, Total, Received, ReturnReverse;
    PoppedBytes(seat.source.up);
    hide Flows;
    var p := seat.source;
    var o := FromSource(s, g, p.up[0], false);
    var seat' := seat.(source := TakenUp(p, o.out));
    IdleFrame(p.down, Demand(0));
    assert p.down + [] == p.down;
    LossFlows(Forward(s, seat), Forward(o.slot, seat'));
    LossFlows(Reverse(s, seat), Reverse(o.slot, seat'));
  }

  lemma UpCarries(s: Slot, g: Shared, seat: Seat)
    requires Carried(s, seat) && s.rec.live && LegInv(s.rec, s.leg, seat.source) && seat.source.up != []
    requires FromSource(s, g, seat.source.up[0], false).Done?
    ensures var o := FromSource(s, g, seat.source.up[0], false);
      Carried(o.slot, seat.(source := TakenUp(seat.source, o.out)))
  {
    hide Carried, LegInv;
    match seat.source.up[0]
    case Data(_) => UpDataCarries(s, g, seat);
    case Fin => UpFinCarries(s, g, seat);
    case Reset => UpForwardCarries(s, g, seat);
    case StreamCredit(_) => UpForwardCarries(s, g, seat);
    case CircuitCredit(_) => UpControlCarries(s, g, seat);
    case Demand(_) => UpControlCarries(s, g, seat);
    case Release(_) => UpControlCarries(s, g, seat);
    case _ =>
  }

  // Steps of the entry.

  lemma GrantCarries(s: Slot, g: Shared, seat: Seat, n: nat)
    requires Carried(s, seat)
    ensures var o := Grant(s, g, n); Carried(o.slot, Sent(seat, o.out))
  {
    hide Bytes, Flat, Received;
    hide Flows;
    var o := Grant(s, g, n);
    IdleFrame(seat.source.down, CircuitCredit(n));
    assert seat.source.down + [] == seat.source.down;
    LossFlows(Forward(s, seat), Forward(o.slot, Sent(seat, o.out)));
    LossFlows(Reverse(s, seat), Reverse(o.slot, Sent(seat, o.out)));
  }

  lemma CloseCarries(s: Slot, g: Shared, seat: Seat)
    requires Carried(s, seat) && s.rec.live && CloseLeg(s, g).Done?
    ensures Carried(CloseLeg(s, g).slot, seat.(rec := s.rec, leg := s.leg))
  {
    hide Bytes, Flat, Received, ReturnReverse;
    hide Flows;
    IdleFrame(s.fwd, Reset);
    var seat' := seat.(rec := s.rec, leg := s.leg);
    LossFlows(Forward(s, seat), Forward(CloseLeg(s, g).slot, seat'));
    LossFlows(Reverse(s, seat), Reverse(CloseLeg(s, g).slot, seat'));
  }

  lemma DownCarries(s: Slot, g: Shared, seat: Seat)
    requires Carried(s, seat) && SlotInv(s) && s.bwd != [] && FromDestination(s, g).Done?
    ensures var o := FromDestination(s, g); Carried(o.slot, Sent(seat, o.out))
  {
    hide Bytes, Flat, Received, Total, NoneAfter, ReturnReverse, StreamFrames, ForwardWindow, ReverseWindow;
    Popped(s.bwd);
    PoppedBytes(s.bwd);
    hide Flows;
    var o := FromDestination(s, g);
    var seat' := Sent(seat, o.out);
    var down := seat.source.down;
    assert down + [] == down;
    LossFlows(Forward(s, seat), Forward(o.slot, seat'));
    if s.rec.live && s.bwd[0].Data? {
      PassFlows(Reverse(s, seat));
    } else if s.rec.live && s.bwd[0].Fin? {
      MarkFlows(Reverse(s, seat));
    } else {
      if !s.bwd[0].Data? { IdleFrame(down, s.bwd[0]); }
      LossFlows(Reverse(s, seat), Reverse(o.slot, seat'));
    }
  }

  // Steps of the destination.

  /** The destination's stream as its peers see it is unchanged. */
  predicate Calm(s: Slot, t: Slot) {
    && t.rec == s.rec && Bytes(t.fwd) == Bytes(s.fwd) && Bytes(t.bwd) == Bytes(s.bwd)
    && t.dst.tx.written == s.dst.tx.written && (s.dst.tx.ended ==> t.dst.tx.ended)
    && (Receiving(t.dst) ==> Receiving(s.dst) && t.dst.rx == s.dst.rx)
    && t.dst.rx.pushed == s.dst.rx.pushed && t.dst.rx.eof == s.dst.rx.eof
  }

  lemma CalmCarries(s: Slot, t: Slot, seat: Seat)
    requires Carried(s, seat) && Calm(s, t)
    ensures Carried(t, seat)
  {
    hide Bytes, Flat;
    hide Flows;
    LossFlows(Forward(s, seat), Forward(t, seat));
    LossFlows(Reverse(s, seat), Reverse(t, seat));
  }

  lemma DstMoneyCalm(s: Slot, g: Shared, n: nat)
    ensures DstGrant(s, g, n).Done? ==> Calm(s, DstGrant(s, g, n).slot)
    ensures DstRelease(s, g).Done? ==> Calm(s, DstRelease(s, g).slot)
    ensures DstRequest(s, g).Done? ==> Calm(s, DstRequest(s, g).slot)
  {
    hide Bytes, Flat;
  }

  lemma EntryDataCarries(s: Slot, g: Shared, seat: Seat, newest: bool, admit: bool)
    requires Carried(s, seat) && SlotInv(s) && s.fwd != [] && s.fwd[0].Data? && FromEntry(s, g, newest, admit).Done?
    ensures Carried(FromEntry(s, g, newest, admit).slot, seat)
  {
    hide Bytes, Flat, Total, NoneAfter, Accept, Consumed, StreamFrames, ReverseWindow;
    Popped(s.fwd);
    PoppedBytes(s.fwd);
    hide Flows;
    if s.dst.phase == Active {
      assert !s.dst.rx.remoteEnded && s.dst.rx.receiveCredit > 0;
      TakeFlows(Forward(s, seat));
    } else {
      LossFlows(Forward(s, seat), Forward(FromEntry(s, g, newest, admit).slot, seat));
    }
  }

  lemma EntryEndCarries(s: Slot, g: Shared, seat: Seat, newest: bool, admit: bool)
    requires Carried(s, seat) && SlotInv(s) && s.fwd != [] && (s.fwd[0].Fin? || s.fwd[0].Reset?)
    ensures FromEntry(s, g, newest, admit).Done? && Carried(FromEntry(s, g, newest, admit).slot, seat)
  {
    hide Bytes, Flat, Total, NoneAfter, Drain, StreamFrames, ReverseWindow;
    Popped(s.fwd);
    PoppedBytes(s.fwd);
    hide Flows;
    var s1 := s.(fwd := s.fwd[1..]);
    CalmCarries(s, s1, seat);
    if s.fwd[0].Fin? && s.dst.phase == Active && !s.dst.rx.remoteEnded {
      DrainFlows(Forward(s1, seat), s.dst.rx.(remoteEnded := true));
    } else {
      CalmCarries(s1, FromEntry(s, g, newest, admit).slot, seat);
    }
  }

  lemma EntryIdleCarries(s: Slot, g: Shared, seat: Seat, newest: bool, admit: bool)
    requires Carried(s, seat) && SlotInv(s) && s.fwd != [] && (s.fwd[0].Open? || s.fwd[0].StreamCredit?)
    requires FromEntry(s, g, newest, admit).Done?
    ensures Carried(FromEntry(s, g, newest, admit).slot, seat)
  {
    hide Bytes, Flat, Total, NoneAfter, StreamFrames, ForwardWindow, ReverseWindow, EndsLast;
    PoppedBytes(s.fwd);
    FramesPop(s.fwd);
    hide Flows, Carried;
    IdleFrame(s.bwd, Reset);
    CalmCarries(s, FromEntry(s, g, newest, admit).slot, seat);
  }

  lemma FromEntryCarries(s: Slot, g: Shared, seat: Seat, newest: bool, admit: bool)
    requires Carried(s, seat) && SlotInv(s) && s.fwd != [] && FromEntry(s, g, newest, admit).Done?
    ensures Carried(FromEntry(s, g, newest, admit).slot, seat)
  {
    hide Carried, SlotInv;
    match s.fwd[0]
    case Data(_) => EntryDataCarries(s, g, seat, newest, admit);
    case Fin => EntryEndCarries(s, g, seat, newest, admit);
    case Reset => EntryEndCarries(s, g, seat, newest, admit);
    case Open => EntryIdleCarries(s, g, seat, newest, admit);
    case StreamCredit(_) => EntryIdleCarries(s, g, seat, newest, admit);
    case _ =>
  }

  lemma DstReadCarries(s: Slot, g: Shared, seat: Seat)
    requires Carried(s, seat) && SlotInv(s) && Enabled(s.dst, Read) && DstAct(s, g, Read).Done?
    ensures Carried(DstAct(s, g, Read).slot, seat)
  {
    hide Bytes, Flat, Total, NoneAfter, Drain, Consumed, StreamFrames, ReverseWindow;
    hide Flows;
    var r := s.dst.rx;
    var r1 := if r.delivered then Consume(r).0 else r;
    DrainFlows(Forward(s, seat), r1.(wantRead := true));
    IdleFrame(s.bwd, StreamCredit(ReadNext(r).1));
    LossFlows(Reverse(s, seat), Reverse(DstAct(s, g, Read).slot, seat));
  }

  lemma DstSendCarries(s: Slot, g: Shared, seat: Seat, bytes: seq<byte>)
    requires Carried(s, seat) && SlotInv(s) && Enabled(s.dst, Send(bytes)) && DstAct(s, g, Send(bytes)).Done?
    ensures Carried(DstAct(s, g, Send(bytes)).slot, seat)
  {
    hide Bytes, Flat, Total, NoneAfter;
    hide Flows;
    WriteFlows(Reverse(s, seat), bytes, DstAct(s, g, Send(bytes)).slot.dst.tx);
  }

  lemma DstActCarries(s: Slot, g: Shared, seat: Seat, act: Act)
    requires Carried(s, seat) && SlotInv(s) && DstAct(s, g, act).Done?
    ensures Carried(DstAct(s, g, act).slot, seat)
  {
    hide Carried, SlotInv;
    if act.Send? && Enabled(s.dst, act) {
      DstSendCarries(s, g, seat, act.bytes);
    } else if act.Read? && Enabled(s.dst, act) {
      DstReadCarries(s, g, seat);
    } else {
      DstActCalm(s, g, act);
      CalmCarries(s, DstAct(s, g, act).slot, seat);
    }
  }

  lemma DstActCalm(s: Slot, g: Shared, act: Act)
    requires DstAct(s, g, act).Done? && (Enabled(s.dst, act) ==> !act.Send? && !act.Read?)
    ensures Calm(s, DstAct(s, g, act).slot)
  {
    hide Bytes, Flat, Consumed;
    IdleFrame(s.bwd, Fin);
    IdleFrame(s.bwd, Reset);
  }

  // -------------------------------------------------------------- whole routes

  ghost predicate AllCarried(r: Route) {
    |r.seats| == |r.circuit.slots| && forall i: nat :: Honest(r, i) ==> Carried(r.circuit.slots[i], r.seats[i])
  }

  lemma UpMoveCarries(r: Route, i: nat)
    requires Agreement(r) && AllCarried(r) && Honest(r, i)
    ensures AllCarried(UpMove(r, i))
  {
    hide Carried, LegInv, Inv, FromSource;
    var p := r.seats[i].source;
    var s := r.circuit.slots[i];
    if p.up != [] && s.rec.live && FromSource(s, r.circuit.shared, p.up[0], false).Done? {
      assert SeatInv(s, r.seats[i]);
      UpCarries(s, r.circuit.shared, r.seats[i]);
    }
  }

  lemma AgreedSlot(r: Route, i: nat)
    requires Agreement(r) && i < |r.circuit.slots|
    ensures !r.circuit.failed && SlotInv(r.circuit.slots[i]) && View(r.circuit.slots[i], r.circuit.shared)
  {
    hide Inv, SeatInv;
    ViewOf(r.circuit, i);
  }

  lemma DestinationSlotCarries(r: Route, step: Step)
    requires step.ToDestination? || step.GrantStream? || step.Reclaim? || step.Application?
    requires Agreement(r) && AllCarried(r) && Honest(r, step.i)
    ensures step.i < |Next(r.circuit, step).0.slots|
    ensures Carried(Next(r.circuit, step).0.slots[step.i], r.seats[step.i])
  {
    hide Carried, Agreement, FromEntry, DstGrant, DstRelease, DstAct, SlotInv;
    var c := r.circuit;
    var i := step.i;
    AgreedSlot(r, i);
    var s := c.slots[i];
    match step
    case ToDestination(_, admit) =>
      var newest := Id(i) > c.lastStreamId;
      if s.fwd != [] && FromEntry(s, c.shared, newest, admit).Done? {
        FromEntryCarries(s, c.shared, r.seats[i], newest, admit);
      }
    case GrantStream(_, n) =>
      DstMoneyCalm(s, c.shared, n);
      if DstGrant(s, c.shared, n).Done? { CalmCarries(s, DstGrant(s, c.shared, n).slot, r.seats[i]); }
    case Reclaim(_) =>
      DstMoneyCalm(s, c.shared, 0);
      if DstRelease(s, c.shared).Done? { CalmCarries(s, DstRelease(s, c.shared).slot, r.seats[i]); }
    case Application(_, act) =>
      if DstAct(s, c.shared, act).Done? { DstActCarries(s, c.shared, r.seats[i], act); }
  }

  lemma DestinationTouchesOne(r: Route, step: Step)
    requires step.ToDestination? || step.GrantStream? || step.Reclaim? || step.Application?
    ensures var r' := MiddleMove(r, step);
      && r'.circuit == Next(r.circuit, step).0 && r'.seats == r.seats
      && |r'.circuit.slots| == |r.circuit.slots|
      && (forall k :: 0 <= k < |r.circuit.slots| && k != step.i ==> r'.circuit.slots[k] == r.circuit.slots[k])
  {
    hide FromEntry, DstGrant, DstRelease, DstAct, Attached;
  }

  lemma DestinationMoveCarries(r: Route, step: Step)
    requires Agreement(r) && AllCarried(r)
    requires step.ToDestination? || step.GrantStream? || step.Reclaim? || step.Application?
    ensures AllCarried(MiddleMove(r, step))
  {
    hide Carried, Agreement, MiddleMove, Next;
    DestinationTouchesOne(r, step);
    if Honest(r, step.i) {
      DestinationSlotCarries(r, step);
    }
  }

  lemma EntrySlotCarries(r: Route, step: Step)
    requires Agreement(r) && AllCarried(r) && (step.Close? || step.GrantLeg? || step.ToEntry?) && Honest(r, step.i)
    ensures Honest(MiddleMove(r, step), step.i)
    ensures Carried(MiddleMove(r, step).circuit.slots[step.i], MiddleMove(r, step).seats[step.i])
  {
    hide Carried, Agreement, FromDestination, SlotInv, Balanced, View;
    var c := r.circuit;
    var i := step.i;
    AgreedSlot(r, i);
    var s := c.slots[i];
    match step
    case Close(_) =>
      CloseLegKeeps(s, c.shared);
      if s.rec.live { CloseCarries(s, c.shared, r.seats[i]); }
    case GrantLeg(_, n) => GrantCarries(s, c.shared, r.seats[i], n);
    case ToEntry(_) =>
      assert r.seats[i].source.down + [] == r.seats[i].source.down;
      if s.bwd != [] {
        FromDestinationSound(s, c.shared);
        DownCarries(s, c.shared, r.seats[i]);
      }
  }

  /** A step that names a stream touches that slot and that seat alone. */
  lemma MiddleTouchesOne(r: Route, step: Step)
    requires (step.Close? || step.GrantLeg? || step.ToEntry?) && |r.seats| == |r.circuit.slots|
    ensures var r' := MiddleMove(r, step);
      && |r'.circuit.slots| == |r.circuit.slots| && |r'.seats| == |r.seats|
      && (forall k :: 0 <= k < |r.seats| && k != step.i ==>
            r'.circuit.slots[k] == r.circuit.slots[k] && r'.seats[k] == r.seats[k])
      && (step.i < |r.seats| ==> r'.seats[step.i].honest == r.seats[step.i].honest)
  {
    hide FromDestination, CloseLeg, Grant;
  }

  lemma EntryMoveCarries(r: Route, step: Step)
    requires Agreement(r) && AllCarried(r) && (step.Close? || step.GrantLeg? || step.ToEntry?)
    ensures AllCarried(MiddleMove(r, step))
  {
    hide Carried, Agreement, MiddleMove;
    MiddleTouchesOne(r, step);
    if Honest(r, step.i) {
      EntrySlotCarries(r, step);
    }
  }

  lemma NewSeatCarried(s: Slot, seat: Seat)
    requires s == ACTIVATED && seat == NewSeat(true)
    ensures Carried(s, seat)
  {
    NothingYet(Forward(s, seat));
    NothingYet(Reverse(s, seat));
  }

  lemma NothingYet(p: Pipe)
    requires |p.w.written| == 0 && |p.r.pushed| == 0 && |p.r.queue| == 0 && !p.r.eof && !p.mark
    requires Total(Cell, p.first) == 0 && Total(Cell, p.second) == 0
    ensures Flows(p)
  {
    NoCellsNoBytes(p.first);
    NoCellsNoBytes(p.second);
  }

  lemma JoinedCarries(r: Route, honest: bool)
    requires AllCarried(r)
    ensures AllCarried(Joined(r, honest))
  {
    hide Carried;
    NewSeatCarried(ACTIVATED, NewSeat(true));
  }

  /** No byte of another leg moves when a dishonest source speaks. */
  lemma StrangersCarry(r: Route, i: nat, f: Frame, tooSoon: bool)
    requires AllCarried(r) && !Honest(r, i)
    ensures AllCarried(MiddleMove(r, Arrive(i, f, tooSoon)))
  {
    hide Carried, FromSource, CloseLeg;
  }

  lemma MiddleCarries(r: Route, step: Step)
    requires Agreement(r) && AllCarried(r)
    ensures AllCarried(MiddleMove(r, step))
  {
    hide Carried, LegInv, Inv;
    match step
    case Close(_) => EntryMoveCarries(r, step);
    case GrantLeg(_, _) => EntryMoveCarries(r, step);
    case ToEntry(_) => EntryMoveCarries(r, step);
    case ToDestination(_, _) => DestinationMoveCarries(r, step);
    case GrantStream(_, _) => DestinationMoveCarries(r, step);
    case Reclaim(_) => DestinationMoveCarries(r, step);
    case Application(_, _) => DestinationMoveCarries(r, step);
    case Activate => JoinedCarries(r, true);
    case Arrive(i, f, tooSoon) => if !Honest(r, i) { StrangersCarry(r, i, f, tooSoon); }
    case _ =>
  }

  lemma MoveCarries(r: Route, move: Move)
    requires Agreement(r) && AllCarried(r)
    ensures AllCarried(MoveOn(r, move))
  {
    hide Carried, LegInv, Inv, MiddleMove, UpMove;
    match move
    case Middle(step) => MiddleCarries(r, step);
    case Stranger => JoinedCarries(r, false);
    case Up(i) => if Honest(r, i) { UpMoveCarries(r, i); }
    case Down(i) =>
      if Honest(r, i) && r.seats[i].source.down != [] && Hear(r.seats[i].source).Took? {
        BoundedOf(r, i);
        HearCarries(r.circuit.slots[i], r.seats[i]);
      }
    case Acts(i, act) =>
      if Honest(r, i) && Perform(r.seats[i].source, act).Took? {
        BoundedOf(r, i);
        PerformCarries(r.circuit.slots[i], r.seats[i], act);
      }
    case Flushes(i) =>
      if Honest(r, i) {
        ReturnQuiet(r.seats[i].source, 0, true);
        QuietCarries(r.circuit.slots[i], r.seats[i], ReturnCircuit(r.seats[i].source, 0, true));
      }
  }

  lemma {:induction false} JourneyCarries(moves: seq<Move>)
    ensures AllCarried(Journey(moves))
  {
    hide Carried, MoveOn, Agreement;
    if moves != [] {
      JourneyCarries(moves[..|moves| - 1]);
      JourneyAgrees(moves[..|moves| - 1]);
      MoveCarries(Journey(moves[..|moves| - 1]), moves[|moves| - 1]);
    }
  }

  /** Each reader was given a prefix of what the other end wrote, and all of it once it was
      given end-of-stream. */
  predicate GivenPrefixes(near: Stream, far: Stream) {
    && far.rx.pushed <= near.tx.written
    && near.rx.pushed <= far.tx.written
    && (far.rx.eof ==> near.tx.ended && far.rx.pushed == near.tx.written)
    && (near.rx.eof ==> far.tx.ended && near.rx.pushed == far.tx.written)
  }

  /** For every schedule of grants, reads, fragments and failures, and whatever dishonest
      sources send on the same circuit: in both directions of an honest leg the reader has
      been given a prefix of what was written, and a reader that was given end-of-stream
      has been given everything. */
  lemma {:induction false} ReadersSeePrefixes(moves: seq<Move>)
    ensures var r := Journey(moves);
      |r.seats| == |r.circuit.slots| && forall i: nat :: Honest(r, i) ==>
        GivenPrefixes(r.seats[i].source.e, r.circuit.slots[i].dst)
  {
    JourneyCarries(moves);
    var r := Journey(moves);
    hide Journey;
    forall i: nat | Honest(r, i) ensures Carried(r.circuit.slots[i], r.seats[i]) {
    }
  }
}
