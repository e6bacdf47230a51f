/**
 What the transitions of a circuit are for, told by the fields they change: what a frame, a
 grant or an act brings about where it is accepted, whatever else the laws of the runs allow.
 */
module Effects {
  import opened Frames
  import opened PoolLeg
  import opened Endpoint
  import opened SharedCircuit
  import opened CircuitRuns
  import SourceLeg

  // -------------------------------------------------------------- acts of a stream

  /** No circuit credit is held, and what was asked for is given up. */
  predicate GivenUp(t: Sender) {
    t.circuitCredit == 0 && (t.circuitRequested > 0 ==> t.circuitCanceling)
  }

  /** All circuit credit that may be asked for has been. */
  predicate AskedFor(t: Sender) {
    t.circuitCredit > 1024 || t.circuitRequested > 0 || t.circuitCanceling
  }

  /** A writer that has stream credit and no circuit credit has asked for some. */
  predicate Asks(t: Sender) {
    t.writing && !t.ended && t.sendCredit > 0 && t.circuitCredit == 0 ==> t.circuitRequested > 0 || t.circuitCanceling
  }

  /** What an enabled act does to the stream, on whichever side it is. */
  predicate ActTakesEffect(e: Stream, act: Act, e': Stream) {
    var t, t' := e.tx, e'.tx;
    match act
    case StartWriting => e' == e.(tx := t.(writing := true))
    case StopWriting => e' == e.(tx := t.(writing := false))
    case Poll =>
      && e'.rx == e.rx && e'.phase == e.phase && t'.sendCredit == t.sendCredit
      && t'.writing == t.writing && t'.ended == t.ended && t'.written == t.written
      && if t.sendCredit == 0 then GivenUp(t') else t'.circuitCredit == t.circuitCredit && (!t.ended ==> AskedFor(t'))
    case Send(bytes) =>
      && t'.sendCredit + 1 == t.sendCredit && t'.circuitCredit + 1 == t.circuitCredit && t'.written == t.written + bytes
      && e' == e.(tx := t.(sendCredit := t'.sendCredit, circuitCredit := t'.circuitCredit, written := t'.written))
    case Idle => e'.rx == e.rx && e'.phase == e.phase && t'.sendCredit == t.sendCredit && GivenUp(t')
    case Final => e'.rx == e.rx && e'.phase == e.phase && t'.ended && GivenUp(t')
    case Read =>
      && e'.tx == t && e'.phase == e.phase && Told(e'.rx)
      && if e.rx.queue != [] then e'.rx.pushed == e.rx.pushed + e.rx.queue[0] && e'.rx.queue == e.rx.queue[1..]
         else e'.rx.pushed == e.rx.pushed && (e'.rx.wantRead || e'.rx.eof)
    case Fail => e' == e.(phase := Destroying)
    case Teardown => e'.phase == Closed && e'.rx.queue == [] && e'.rx.outstanding == 0 && e'.tx == t
  }

  lemma SourceReads(p: SourceLeg.Source)
    requires Enabled(p.e, Read) && SourceLeg.Perform(p, Read).Took? && Window(p.e.rx)
    ensures ActTakesEffect(p.e, Read, SourceLeg.Perform(p, Read).source.e)
  {
    hide ReadNext, Told;
    ReadServes(p.e.rx);
  }

  lemma SourceActs(p: SourceLeg.Source, act: Act)
    requires Enabled(p.e, act) && SourceLeg.Perform(p, act).Took? && (act.Read? ==> Window(p.e.rx))
    ensures ActTakesEffect(p.e, act, SourceLeg.Perform(p, act).source.e)
    ensures act.Send? ==> SourceLeg.Perform(p, act).source.up == p.up + [Data(act.bytes)]
  {
    hide Window, ReadNext, Told;
    if act.Read? {
      SourceReads(p);
    }
  }

  lemma DestinationActs(s: Slot, g: Shared, act: Act)
    requires Enabled(s.dst, act) && DstAct(s, g, act).Done? && (act.Read? ==> Window(s.dst.rx))
    ensures ActTakesEffect(s.dst, act, DstAct(s, g, act).slot.dst)
    ensures act.Send? ==> DstAct(s, g, act).slot.bwd == s.bwd + [Data(act.bytes)]
    ensures act.Teardown? ==>
      && DstAct(s, g, act).slot.dleg.granted == 0 && DstAct(s, g, act).slot.dleg.wanted == 0
      && DstAct(s, g, act).shared.dAvailable == g.dAvailable + s.dleg.granted
  {
    if act.Read? {
      hide ReadNext, Told;
      ReadServes(s.dst.rx);
    }
  }

  // ------------------------------------------------------------------ pool and leg

  /** A grant gives a live leg that much and tells its source. */
  lemma GrantGives(s: Slot, g: Shared, amount: nat)
    requires s.rec.live && 1 <= amount <= s.leg.wanted && amount <= g.available
    ensures var o := Grant(s, g, amount);
      && o.Done? && o.out == [CircuitCredit(amount)]
      && o.slot.leg.granted == s.leg.granted + amount && o.slot.leg.wanted == s.leg.wanted - amount
      && o.shared.available == g.available - amount
  {
  }

  /** A closed leg is out of the books for good: it holds and wants nothing, and all it held
      is free again. */
  lemma CloseCloses(s: Slot, g: Shared)
    requires SlotInv(s) && View(s, g) && s.rec.live
    ensures var o := CloseLeg(s, g);
      && o.Done? && !o.slot.rec.live && o.slot.leg.granted == 0 && o.slot.leg.wanted == 0
      && o.slot.rec.reverseInFlight == 0 && o.shared.available == g.available + s.leg.granted
      && o.shared.reversePending == 0
      && o.shared.reverseCredit == g.reverseCredit + g.reversePending + s.rec.reverseInFlight
      && o.slot.fwd == s.fwd + if s.rec.resetReceived || (s.rec.sourceEnded && s.rec.destinationEnded) then [] else [Reset]
  {
    hide SlotInv, Total, Sum;
    CloseLegKeeps(s, g);
  }

  /** A frame that is refused costs the leg its life, and closing a leg closes it. */
  lemma RefusedIsClosed(c: Circuit, i: nat, f: Frame, tooSoon: bool)
    requires Inv(c) && i < |c.slots| && c.slots[i].rec.live
    ensures !Next(c, Close(i)).0.slots[i].rec.live
    ensures FromSource(c.slots[i], c.shared, f, tooSoon).Refused? ==>
      !Next(c, Arrive(i, f, tooSoon)).0.slots[i].rec.live
  {
    hide Inv, SlotInv, View, FromSource, CloseLeg;
    ViewOf(c, i);
    CloseCloses(c.slots[i], c.shared);
    Unfailed(c);
  }

  lemma Unfailed(c: Circuit)
    requires Inv(c)
    ensures !c.failed
  {
  }

  /** An ended source can ask for no more credit. */
  lemma EndedDemandsNoMore(s: Slot, g: Shared, f: Frame, tooSoon: bool)
    requires s.rec.sourceEnded && FromSource(s, g, f, tooSoon).Done?
    ensures FromSource(s, g, f, tooSoon).slot.leg.wanted <= s.leg.wanted
    ensures FromSource(s, g, f, tooSoon).slot.rec.sourceEnded
    ensures !f.Data?
  {
    hide ReturnReverse;
  }

  // ------------------------------------------------------------ destination streams

  /** The next OPEN is admitted, or answered with a RESET. */
  lemma OpenAnswered(s: Slot, g: Shared, admit: bool)
    requires s.fwd != [] && s.fwd[0].Open?
    ensures var o := FromEntry(s, g, true, admit);
      && o.Done?
      && (admit ==> o.slot.dst == Fresh(Active) && o.slot.bwd == s.bwd)
      && (!admit ==> o.slot.dst.phase == Closed && o.slot.bwd == s.bwd + [Reset])
  {
  }

  /** A RESET that arrives destroys a live stream, which will not answer with another. */
  lemma ResetDestroys(s: Slot, g: Shared)
    requires s.fwd != [] && s.fwd[0].Reset? && s.dst.phase == Active
    ensures var o := FromEntry(s, g, false, false);
      && o.Done? && o.slot.fwd == s.fwd[1..] && o.shared == g && o.slot.bwd == s.bwd
      && o.slot.dst.phase == Destroying && o.slot.dst.resetReceived && !SendsReset(o.slot.dst)
  {
  }

  /** A FIN that arrives at a live stream with nothing left to read is told at once. */
  lemma FinTold(s: Slot, g: Shared)
    requires s.fwd != [] && s.fwd[0].Fin? && s.dst.phase == Active && !s.dst.rx.remoteEnded
    ensures var o := FromEntry(s, g, false, false);
      && o.Done? && o.slot.dst.rx.remoteEnded && o.slot.dst.phase == Active
      && (s.dst.rx.queue == [] && !s.dst.rx.delivered ==> o.slot.dst.rx.eof)
  {
  }

  /** A live stream keeps DATA for which it has credit, and hands it to a waiting reader. */
  lemma DataKept(s: Slot, g: Shared)
    requires SlotInv(s) && View(s, g) && s.fwd != [] && s.fwd[0].Data? && s.dst.phase == Active
    ensures var o := FromEntry(s, g, false, false);
      && o.Done? && o.slot.dst.phase == Active && o.shared.receiveCredit == g.receiveCredit - 1
      && Received(o.slot.dst.rx) == Received(s.dst.rx) + s.fwd[0].bytes
      && (s.dst.rx.wantRead ==> o.slot.dst.rx.delivered && o.slot.dst.rx.pushed == s.dst.rx.pushed + s.fwd[0].bytes)
  {
    hide Total, NoneAfter, Sum, StreamFrames, Accept, Received;
    Popped(s.fwd);
    FramesPop(s.fwd);
    AcceptKeepsWindow(s.dst.rx, s.fwd[0].bytes);
    AcceptServes(s.dst.rx, s.fwd[0].bytes);
  }

  lemma DstReleaseFrees(s: Slot, g: Shared)
    requires s.dst.tx.circuitCredit <= s.dleg.granted
    ensures var o := DstRelease(s, g);
      && o.Done? && GivenUp(o.slot.dst.tx) && o.slot.dst.tx.circuitRequested == 0
      && o.slot.dleg.granted == s.dleg.granted - s.dst.tx.circuitCredit && o.slot.dleg.wanted == 0
      && o.shared.dAvailable == g.dAvailable + s.dst.tx.circuitCredit
  {
  }

  /** A live stream that may write asks its pool for the rest of the window, once. */
  lemma DstRequestAsks(s: Slot, g: Shared)
    requires SlotInv(s) && s.dst.phase == Active && !s.dst.tx.ended && s.dst.tx.sendCredit > 0
    ensures var o := DstRequest(s, g);
      && o.Done? && AskedFor(o.slot.dst.tx) && o.slot.dst.tx.circuitCredit == s.dst.tx.circuitCredit
      && o.slot.dleg.wanted == o.slot.dst.tx.circuitRequested && o.shared == g
      && (o.slot.dst.tx.circuitRequested != s.dst.tx.circuitRequested ==>
            s.dst.tx.circuitRequested == 0 && o.slot.dst.tx.circuitRequested + s.dst.tx.circuitCredit == 2048)
  {
    hide Total, NoneAfter;
  }

  /** A pool grant is kept by a stream that can use it, and given back by one that cannot. */
  lemma DstGrantGives(s: Slot, g: Shared, amount: nat)
    requires SlotInv(s) && s.dst.phase == Active && 1 <= amount <= s.dleg.wanted && amount <= g.dAvailable
    ensures var o := DstGrant(s, g, amount);
      var t, t' := s.dst.tx, o.slot.dst.tx;
      && o.Done?
      && if t.sendCredit == 0 || t.ended then GivenUp(t') && o.shared.dAvailable == g.dAvailable + t.circuitCredit
         else t'.circuitCredit == t.circuitCredit + amount && t'.circuitRequested == t.circuitRequested - amount
              && o.shared.dAvailable == g.dAvailable - amount
  {
    hide Total, NoneAfter;
  }

  /** Entry and destination return circuit credit in batches of 32 too, or whole when flushed. */
  lemma SharedReturnsInBatches(g: Shared, amount: nat, flush: bool)
    ensures var r := ReturnReverse(g, amount, flush);
      && (!flush && g.reversePending + amount < 32 ==> r == g.(reversePending := g.reversePending + amount))
      && ((flush || g.reversePending + amount >= 32) && g.reversePending + amount > 0 ==>
            r.reversePending == 0 && r.toDst == g.toDst + [g.reversePending + amount])
    ensures var r := Consumed(g, amount, flush);
      && (!flush && g.returnPending + amount < 32 ==> r == g.(returnPending := g.returnPending + amount))
      && ((flush || g.returnPending + amount >= 32) && g.returnPending + amount > 0 ==>
            r.returnPending == 0 && r.toEntry == g.toEntry + [g.returnPending + amount])
  {
  }

  /** A stream that is torn down sends a RESET, unless both directions had ended or it was
      reset itself. */
  lemma TeardownSpeaks(s: Slot, g: Shared, p: SourceLeg.Source)
    ensures s.dst.phase == Destroying && DstAct(s, g, Teardown).Done? ==>
      var e := s.dst;
      DstAct(s, g, Teardown).slot.bwd == s.bwd + if (e.tx.ended && e.rx.remoteEnded) || e.resetReceived then [] else [Reset]
    ensures p.e.phase == Destroying && SourceLeg.Perform(p, Teardown).Took? ==>
      var q := SourceLeg.Perform(p, Teardown).source;
      (Reset in q.up <==> Reset in p.up || !((p.e.tx.ended && p.e.rx.remoteEnded) || p.e.resetReceived))
  {
    hide Consumed;
  }

  // ---------------------------------------------------------------- honest sources

  /** Circuit credit is returned in batches of 32, or whole when flushed. */
  lemma ReturnsInBatches(p: SourceLeg.Source, amount: nat, flush: bool)
    ensures var q := SourceLeg.ReturnCircuit(p, amount, flush);
      && q.circuitReturn < 32 && (flush ==> q.circuitReturn == 0)
      && (!flush && p.circuitReturn + amount < 32 ==> q.circuitReceive == p.circuitReceive)
      && q.circuitReceive + q.circuitReturn == p.circuitReceive + p.circuitReturn + amount
      && q.up == if q.circuitReceive == p.circuitReceive then p.up
                 else p.up + [CircuitCredit(q.circuitReceive - p.circuitReceive)]
  {
  }

  /** A RESET that comes down the leg destroys a live source. */
  lemma SourceResetDestroys(p: SourceLeg.Source)
    requires p.down != [] && p.down[0].Reset? && p.e.phase == Active
    ensures var r := SourceLeg.Hear(p);
      r.Took? && r.source.e.phase == Destroying && r.source.e.resetReceived && !SendsReset(r.source.e)
  {
  }

  // ------------------------------------------------- destination writers ask for credit

  /** The steps that only the write of stream i makes, and the pool's reclaim of its credit,
      after which the write polls again. */
  predicate OfWriter(step: Step, i: nat) {
    || step == Reclaim(i)
    || (step.Application? && step.i == i && (step.act.StartWriting? || step.act.Send?))
  }

  lemma PollAsks(s: Slot, g: Shared)
    requires SlotInv(s) && Enabled(s.dst, Poll)
    ensures DstAct(s, g, Poll).Done? && Asks(DstAct(s, g, Poll).slot.dst.tx)
  {
    hide Total, NoneAfter, Sum, StreamFrames;
  }

  lemma FromEntryAsks(s: Slot, g: Shared, newest: bool, admit: bool)
    requires SlotInv(s) && s.fwd != [] && Asks(s.dst.tx) && FromEntry(s, g, newest, admit).Done?
    ensures Asks(FromEntry(s, g, newest, admit).slot.dst.tx)
  {
    hide Total, NoneAfter, Sum, StreamFrames, Accept, Drain, Consumed;
  }

  lemma GrantAsks(s: Slot, g: Shared, n: nat)
    requires Asks(s.dst.tx) && DstGrant(s, g, n).Done?
    ensures Asks(DstGrant(s, g, n).slot.dst.tx)
  {
  }

  lemma ActAsks(s: Slot, g: Shared, act: Act)
    requires SlotInv(s) && Asks(s.dst.tx) && !act.StartWriting? && !act.Send? && DstAct(s, g, act).Done?
    ensures Asks(DstAct(s, g, act).slot.dst.tx)
  {
    hide Total, NoneAfter, Sum, StreamFrames, ReadNext, Consumed;
    if act.Poll? && Enabled(s.dst, act) {
      PollAsks(s, g);
    }
  }

  /** Other steps leave the sending half of stream i alone. */
  lemma OthersSpare(c: Circuit, i: nat, step: Step)
    requires i < |c.slots|
    requires !(step.ToDestination? && step.i == i) && !(step.GrantStream? && step.i == i)
    requires !(step.Reclaim? && step.i == i) && !(step.Application? && step.i == i)
    ensures i < |Next(c, step).0.slots| && Next(c, step).0.slots[i].dst == c.slots[i].dst
  {
    hide ReturnReverse, FromEntry, DstGrant, DstRelease, DstAct, Consumed;
  }

  lemma StepAsks(c: Circuit, i: nat, step: Step)
    requires Inv(c) && i < |c.slots| && Asks(c.slots[i].dst.tx) && !OfWriter(step, i)
    ensures i < |Next(c, step).0.slots| && Asks(Next(c, step).0.slots[i].dst.tx)
  {
    hide Inv, SlotInv, View, Asks, FromEntry, DstGrant, DstAct;
    ViewOf(c, i);
    var s, g := c.slots[i], c.shared;
    if step.ToDestination? && step.i == i {
      if s.fwd != [] && FromEntry(s, g, Id(i) > c.lastStreamId, step.admit).Done? {
        FromEntryAsks(s, g, Id(i) > c.lastStreamId, step.admit);
      }
    } else if step.GrantStream? && step.i == i {
      if DstGrant(s, g, step.amount).Done? { GrantAsks(s, g, step.amount); }
    } else if step.Application? && step.i == i {
      if DstAct(s, g, step.act).Done? { ActAsks(s, g, step.act); }
    } else {
      OthersSpare(c, i, step);
      hide Next;
    }
  }

  /** The circuit goes on. */
  function After(c: Circuit, steps: seq<Step>): Circuit {
    if steps == [] then c else Next(After(c, steps[..|steps| - 1]), steps[|steps| - 1]).0
  }

  lemma {:induction false} RunOn(a: seq<Step>, b: seq<Step>)
    ensures Run(a + b) == After(Run(a), b)
  {
    hide Next;
    if b == [] {
      assert a + b == a;
    } else {
      var n := |b| - 1;
      assert (a + b)[..|a| + n] == a + b[..n];
      RunOn(a, b[..n]);
    }
  }

  lemma {:induction false} AfterAsks(a: seq<Step>, i: nat, b: seq<Step>)
    requires i < |Run(a).slots| && Asks(Run(a).slots[i].dst.tx)
    requires forall k :: 0 <= k < |b| ==> !OfWriter(b[k], i)
    ensures i < |After(Run(a), b).slots| && Asks(After(Run(a), b).slots[i].dst.tx)
  {
    hide Next, Asks, Run, OfWriter, Inv;
    if b != [] {
      var n := |b| - 1;
      AfterAsks(a, i, b[..n]);
      RunOn(a, b[..n]);
      RunKeeps(a + b[..n]);
      assert !OfWriter(b[n], i);
      StepAsks(After(Run(a), b[..n]), i, b[n]);
    }
  }

  /** In every run: a destination stream that has polled, and has sent nothing and been
      stripped of nothing since, never sits without circuit credit while it has something to
      write and stream credit to write it with, unless its pool owes it some. */
  lemma {:induction false} PolledStreamAsks(before: seq<Step>, i: nat, rest: seq<Step>)
    requires i < |Run(before).slots| && Enabled(Run(before).slots[i].dst, Poll)
    requires forall k :: 0 <= k < |rest| ==> !OfWriter(rest[k], i)
    ensures var c := Run(before + [Application(i, Poll)] + rest);
      i < |c.slots| && var s := c.slots[i];
      s.dst.phase == Active && s.dst.tx.writing && s.dst.tx.sendCredit > 0 && s.dst.tx.circuitCredit == 0 ==>
        s.dleg.wanted == s.dst.tx.circuitRequested > 0
  {
    hide Next, Run, OfWriter, Inv, SlotInv, Asks, After;
    var polled := before + [Application(i, Poll)];
    PolledAsks(before, i);
    AfterAsks(polled, i, rest);
    RunOn(polled, rest);
    RunKeeps(polled + rest);
    ViewOf(Run(polled + rest), i);
    OwedIsWanted(Run(polled + rest).slots[i]);
  }

  lemma PolledAsks(before: seq<Step>, i: nat)
    requires i < |Run(before).slots| && Enabled(Run(before).slots[i].dst, Poll)
    ensures i < |Run(before + [Application(i, Poll)]).slots|
    ensures Asks(Run(before + [Application(i, Poll)]).slots[i].dst.tx)
  {
    hide Inv, SlotInv, View, Asks, DstAct, Enabled;
    var c := Run(before);
    RunKeeps(before);
    ViewOf(c, i);
    PollAsks(c.slots[i], c.shared);
    assert (before + [Application(i, Poll)])[..|before|] == before;
  }

  lemma OwedIsWanted(s: Slot)
    requires SlotInv(s) && Asks(s.dst.tx)
    ensures s.dst.phase == Active && s.dst.tx.writing && s.dst.tx.sendCredit > 0 && s.dst.tx.circuitCredit == 0 ==>
      s.dleg.wanted == s.dst.tx.circuitRequested > 0
  {
    hide Total, NoneAfter, StreamFrames;
  }
}
