/**
 How streams end, in whole runs.  An end or a reset that one side announces reaches the
 other: it is still under way, or has been noted, or the other side is gone already.  A leg
 that is closed takes the destination's stream with it, and a reader with nothing left to
 read has been told.
 */
module Endings {
  import opened Frames
  import opened Endpoint
  import opened SharedCircuit
  import opened SourceLeg
  import opened CircuitRuns
  import opened HonestRuns
  import Delivery

  /** A leg closed with something still open. */
  predicate Severed(rec: Record) {
    !rec.live && !(rec.sourceEnded && rec.destinationEnded)
  }

  predicate BothEnded(e: Stream) {
    e.tx.ended && e.rx.remoteEnded
  }

  // ---------------------------------------------------------- entry and destination

  predicate SlotEnds(s: Slot) {
    && ResetsForward(s) && ResetsBackward(s) && FinsPass(s)
    && (s.dst.phase == Active ==> Told(s.dst.rx))
  }

  /** A destination stream that lives on a broken or severed leg has a RESET coming. */
  predicate ResetsForward(s: Slot) {
    && (Receiving(s.dst) && (s.rec.resetReceived || Severed(s.rec)) ==> Reset in s.fwd)
    && (s.rec.live && (s.dst.resetReceived || Reset in s.fwd) ==> s.rec.resetReceived)
  }

  /** A destination stream that has gone has sent a RESET, unless it was reset itself or
      both directions had ended. */
  predicate ResetsBackward(s: Slot) {
    && (Receiving(s.dst) ==> Reset !in s.bwd)
    && (s.rec.live && s.dst.phase == Closed ==> Reset in s.bwd || s.rec.resetReceived || BothEnded(s.dst))
  }

  predicate FinsPass(s: Slot) {
    && (Receiving(s.dst) && s.rec.sourceEnded ==> Fin in s.fwd || s.dst.rx.remoteEnded)
    && (s.rec.live && s.dst.tx.ended ==> Fin in s.bwd || s.rec.destinationEnded)
  }

  lemma SplitFirst(ch: seq<Frame>)
    requires ch != []
    ensures forall f :: f in ch <==> f == ch[0] || f in ch[1..]
  {
    assert ch == [ch[0]] + ch[1..];
  }

  lemma FromSourceEnds(s: Slot, g: Shared, f: Frame, tooSoon: bool)
    requires SlotEnds(s) && s.rec.live && FromSource(s, g, f, tooSoon).Done?
    ensures SlotEnds(FromSource(s, g, f, tooSoon).slot)
  {
    hide Told, ReturnReverse;
  }

  lemma CloseLegEnds(s: Slot, g: Shared)
    requires SlotEnds(s) && CloseLeg(s, g).Done?
    ensures SlotEnds(CloseLeg(s, g).slot)
  {
    hide Told, ReturnReverse;
  }

  lemma GrantEnds(s: Slot, g: Shared, n: nat)
    requires SlotEnds(s)
    ensures SlotEnds(Grant(s, g, n).slot)
  {
    hide Told;
  }

  lemma FromDestinationEnds(s: Slot, g: Shared)
    requires SlotEnds(s) && s.bwd != [] && FromDestination(s, g).Done?
    ensures SlotEnds(FromDestination(s, g).slot)
  {
    hide Told, ReturnReverse;
    SplitFirst(s.bwd);
  }

  lemma ReleaseEnds(s: Slot, g: Shared, n: nat)
    requires SlotEnds(s)
    ensures DstRelease(s, g).Done? ==> SlotEnds(DstRelease(s, g).slot)
    ensures DstRequest(s, g).Done? ==> SlotEnds(DstRequest(s, g).slot)
    ensures DstGrant(s, g, n).Done? ==> SlotEnds(DstGrant(s, g, n).slot)
  {
    hide Told;
  }

  lemma FromEntryDataEnds(s: Slot, g: Shared)
    requires SlotEnds(s) && SlotInv(s) && s.fwd != [] && s.fwd[0].Data? && FromEntry(s, g, false, false).Done?
    ensures SlotEnds(FromEntry(s, g, false, false).slot)
  {
    hide Told, Consumed, Accept, ForwardWindow, ReverseWindow, EndsLast, StreamFrames;
    SplitFirst(s.fwd);
    if s.dst.phase == Active && !s.dst.rx.remoteEnded && CanAccept(s.dst.rx) {
      AcceptedIsTold(s, s.fwd[0].bytes);
    }
  }

  lemma AcceptedIsTold(s: Slot, data: seq<byte>)
    requires SlotInv(s) && s.dst.phase == Active && CanAccept(s.dst.rx) && !s.dst.rx.remoteEnded
    ensures Told(Accept(s.dst.rx, data)) && !Accept(s.dst.rx, data).remoteEnded
  {
    hide Accept, Drain;
    AcceptKeepsWindow(s.dst.rx, data);
  }

  lemma FromEntryMarkEnds(s: Slot, g: Shared)
    requires SlotEnds(s) && SlotInv(s) && s.fwd != [] && (s.fwd[0].Fin? || s.fwd[0].Reset?)
    ensures SlotEnds(FromEntry(s, g, false, false).slot)
  {
    hide Told, Drain, ForwardWindow, ReverseWindow, EndsLast, StreamFrames;
    SplitFirst(s.fwd);
    FinServes(s.dst);
    FinSpares(s.dst);
  }

  lemma FinSpares(e: Stream)
    ensures RemoteFin(e).resetReceived == e.resetReceived
    ensures e.rx.remoteEnded ==> RemoteFin(e) == e
  {
    hide Drain;
  }

  lemma FromEntryCreditEnds(s: Slot, g: Shared)
    requires SlotEnds(s) && SlotInv(s) && s.fwd != [] && s.fwd[0].StreamCredit? && FromEntry(s, g, false, false).Done?
    ensures SlotEnds(FromEntry(s, g, false, false).slot)
  {
    hide Told, ForwardWindow, ReverseWindow, EndsLast, StreamFrames, DstRequest;
    SplitFirst(s.fwd);
    ReleaseEnds(Credited(s), g, 0);
  }

  lemma FromEntryOpenEnds(s: Slot, g: Shared, newest: bool, admit: bool)
    requires SlotEnds(s) && SlotInv(s) && s.fwd != [] && s.fwd[0].Open? && FromEntry(s, g, newest, admit).Done?
    ensures SlotEnds(FromEntry(s, g, newest, admit).slot)
  {
    hide ForwardWindow, ReverseWindow, EndsLast;
    SplitFirst(s.fwd);
    assert s.dst.phase == Unopened;
    assert !Fresh(Active).rx.remoteEnded;
  }

  lemma FromEntryEnds(s: Slot, g: Shared, newest: bool, admit: bool)
    requires SlotEnds(s) && SlotInv(s) && s.fwd != [] && FromEntry(s, g, newest, admit).Done?
    ensures SlotEnds(FromEntry(s, g, newest, admit).slot)
  {
    hide SlotEnds, SlotInv;
    match s.fwd[0]
    case Open => FromEntryOpenEnds(s, g, newest, admit);
    case Data(_) => FromEntryDataEnds(s, g);
    case StreamCredit(_) => FromEntryCreditEnds(s, g);
    case Fin => FromEntryMarkEnds(s, g);
    case Reset => FromEntryMarkEnds(s, g);
    case _ =>
  }

  lemma ReadEnds(s: Slot, g: Shared)
    requires SlotEnds(s) && SlotInv(s) && Enabled(s.dst, Read) && DstAct(s, g, Read).Done?
    ensures SlotEnds(DstAct(s, g, Read).slot)
  {
    hide Told, Consumed, ReadNext, ForwardWindow, ReverseWindow, EndsLast, StreamFrames;
    ReadIsTold(s);
  }

  lemma ReadIsTold(s: Slot)
    requires SlotInv(s) && s.dst.phase == Active
    ensures (s.dst.rx.delivered ==> s.dst.rx.outstanding > 0)
    ensures Told(ReadNext(s.dst.rx).0) && ReadNext(s.dst.rx).0.remoteEnded == s.dst.rx.remoteEnded
  {
    hide ReadNext, Drain;
    SharedCircuit.ReadFits(s.dst.rx);
    ReadServes(s.dst.rx);
  }

  lemma DstActEnds(s: Slot, g: Shared, act: Act)
    requires SlotEnds(s) && SlotInv(s) && DstAct(s, g, act).Done?
    ensures SlotEnds(DstAct(s, g, act).slot)
  {
    if Enabled(s.dst, act) && act.Read? {
      ReadEnds(s, g);
    } else {
      OtherActEnds(s, g, act);
    }
  }

  lemma OtherActEnds(s: Slot, g: Shared, act: Act)
    requires SlotEnds(s) && DstAct(s, g, act).Done? && (act.Read? ==> !Enabled(s.dst, act))
    ensures SlotEnds(DstAct(s, g, act).slot)
  {
    hide Told, Consumed, DstRequest, DstRelease;
    ReleaseEnds(s, g, 0);
    ReleasePlain(s, g);
    ReleasePlain(s.(dst := s.dst.(tx := s.dst.tx.(ended := true))), g);
  }

  lemma ReleasePlain(s: Slot, g: Shared)
    ensures DstRelease(s, g).Done? ==>
      var t := DstRelease(s, g).slot;
      && t.rec == s.rec && t.fwd == s.fwd && t.bwd == s.bwd && t.dst.tx.ended == s.dst.tx.ended
      && t.dst == s.dst.(tx := t.dst.tx)
  {
  }

  // ------------------------------------------------------------ runs of the circuit

  predicate CircuitEnds(c: Circuit) {
    forall i :: 0 <= i < |c.slots| ==> SlotEnds(c.slots[i])
  }

  lemma CommitEnds(c: Circuit, i: nat, o: Outcome)
    requires CircuitEnds(c) && i < |c.slots| && (o.Done? ==> SlotEnds(o.slot))
    ensures CircuitEnds(Commit(c, i, o).0)
  {
    hide SlotEnds;
  }

  lemma ActivateEnds(c: Circuit)
    requires CircuitEnds(c)
    ensures CircuitEnds(c.(slots := c.slots + [ACTIVATED]))
  {
    FreshEnds(ACTIVATED);
    hide SlotEnds;
  }

  lemma FreshEnds(s: Slot)
    requires s == ACTIVATED
    ensures SlotEnds(s)
  {
  }

  lemma EntryStepEnds(c: Circuit, step: Step)
    requires Inv(c) && CircuitEnds(c)
    requires step.Arrive? || step.Close? || step.GrantLeg? || step.ToEntry?
    ensures CircuitEnds(Next(c, step).0)
  {
    hide Inv, SlotEnds, CircuitEnds, FromSource, CloseLeg, Grant, FromDestination, Commit;
    var i := step.i;
    if i < |c.slots| {
      var s, g := c.slots[i], c.shared;
      SlotEndsAt(c, i);
      match step
      case Arrive(_, f, tooSoon) =>
        var o := FromSource(s, g, f, tooSoon);
        if o.Done? && s.rec.live {
          FromSourceEnds(s, g, f, tooSoon);
          CommitEnds(c, i, o);
        } else {
          ClosedEnds(c, i);
        }
      case Close(_) => ClosedEnds(c, i);
      case GrantLeg(_, n) => GrantEnds(s, g, n); CommitEnds(c, i, Grant(s, g, n));
      case ToEntry(_) =>
        if s.bwd != [] {
          var o := FromDestination(s, g);
          if o.Done? { FromDestinationEnds(s, g); }
          CommitEnds(c, i, o);
        }
    }
  }

  lemma SlotEndsAt(c: Circuit, i: nat)
    requires CircuitEnds(c) && i < |c.slots|
    ensures SlotEnds(c.slots[i])
  {
  }

  lemma ClosedEnds(c: Circuit, i: nat)
    requires CircuitEnds(c) && i < |c.slots|
    ensures CircuitEnds(Commit(c, i, CloseLeg(c.slots[i], c.shared)).0)
  {
    hide SlotEnds, CircuitEnds, CloseLeg;
    SlotEndsAt(c, i);
    var o := CloseLeg(c.slots[i], c.shared);
    if o.Done? {
      CloseLegEnds(c.slots[i], c.shared);
    }
    CommitEnds(c, i, o);
  }

  lemma DestinationStepEnds(c: Circuit, step: Step)
    requires Inv(c) && CircuitEnds(c)
    requires step.ToDestination? || step.GrantStream? || step.Reclaim? || step.Application?
    ensures CircuitEnds(Next(c, step).0)
  {
    hide Inv, SlotInv, SlotEnds, CircuitEnds, FromEntry, DstGrant, DstRelease, DstAct, Commit, Attached, View;
    var i := step.i;
    if i < |c.slots| {
      var s, g := c.slots[i], c.shared;
      SlotEndsAt(c, i);
      ViewOf(c, i);
      match step
      case ToDestination(_, admit) =>
        if s.fwd != [] {
          var o := FromEntry(s, g, Id(i) > c.lastStreamId, admit);
          if o.Done? { FromEntryEnds(s, g, Id(i) > c.lastStreamId, admit); }
          CommitEnds(c, i, o);
          OpenedEnds(Commit(c, i, o).0, Id(i));
        }
      case GrantStream(_, n) => ReleaseEnds(s, g, n); CommitEnds(c, i, DstGrant(s, g, n));
      case Reclaim(_) => ReleaseEnds(s, g, 0); CommitEnds(c, i, DstRelease(s, g));
      case Application(_, act) =>
        var o := DstAct(s, g, act);
        if o.Done? { DstActEnds(s, g, act); }
        CommitEnds(c, i, o);
    }
  }

  lemma OpenedEnds(c: Circuit, id: nat)
    requires CircuitEnds(c)
    ensures CircuitEnds(c.(lastStreamId := id))
  {
    hide SlotEnds;
  }

  lemma StepEnds(c: Circuit, step: Step)
    requires Inv(c) && CircuitEnds(c)
    ensures CircuitEnds(Next(c, step).0)
  {
    hide Inv, SlotEnds;
    match step
    case Activate => ActivateEnds(c);
    case Arrive(_, _, _) => EntryStepEnds(c, step);
    case Close(_) => EntryStepEnds(c, step);
    case GrantLeg(_, _) => EntryStepEnds(c, step);
    case ToEntry(_) => EntryStepEnds(c, step);
    case ToDestination(_, _) => DestinationStepEnds(c, step);
    case GrantStream(_, _) => DestinationStepEnds(c, step);
    case Reclaim(_) => DestinationStepEnds(c, step);
    case Application(_, _) => DestinationStepEnds(c, step);
    case _ =>
  }

  lemma {:induction false} RunEnds(steps: seq<Step>)
    ensures CircuitEnds(Run(steps))
  {
    hide Inv, Next, SlotEnds;
    if steps != [] {
      var n := |steps| - 1;
      RunEnds(steps[..n]);
      RunKeeps(steps[..n]);
      StepEnds(Run(steps[..n]), steps[n]);
    }
  }

  /** In every run, whatever frames the sources send: once the frames of a closed leg have
      arrived, its stream at the destination is gone, unless both directions had ended; and
      a live stream whose end was announced and that has nothing left to read has been told. */
  lemma {:induction false} ClosedLegsAreHeard(steps: seq<Step>)
    ensures forall i :: 0 <= i < |Run(steps).slots| ==>
      var s := Run(steps).slots[i];
      && (!s.rec.live && s.fwd == [] && !(s.rec.sourceEnded && s.rec.destinationEnded) ==>
            s.dst.phase == Destroying || s.dst.phase == Closed)
      && (s.rec.resetReceived && s.fwd == [] ==> s.dst.phase == Destroying || s.dst.phase == Closed)
      && (s.rec.sourceEnded && s.fwd == [] && s.dst.phase == Active ==> s.dst.rx.remoteEnded)
      && (s.dst.phase == Active && s.dst.rx.remoteEnded && s.dst.rx.queue == [] && !s.dst.rx.delivered ==> s.dst.rx.eof)
  {
    RunEnds(steps);
    hide Run;
    forall i | 0 <= i < |Run(steps).slots| ensures SlotEnds(Run(steps).slots[i]) {
    }
  }

  // ------------------------------------------------------------------ honest sources

  /** The same between an honest source and what the entry knows, or last knew, of it. */
  predicate SourceEnds(rec: Record, p: Source) {
    && p.e.phase != Unopened && (p.e.tx.ended ==> Fin in p.up || rec.sourceEnded)
    && (p.e.phase == Active && rec.destinationEnded ==> Fin in p.down || p.e.rx.remoteEnded)
    && (p.e.phase == Active ==> Reset !in p.up && Told(p.e.rx))
    && (p.e.phase == Closed ==> Reset in p.up || rec.resetReceived || BothEnded(p.e))
    && (p.e.phase == Active && rec.resetReceived ==> Reset in p.down)
    && (p.e.resetReceived || Reset in p.down ==> rec.resetReceived)
  }

  lemma NewSourceEnds(rec: Record, p: Source)
    requires p == NEW_SOURCE && rec == ACTIVATED.rec
    ensures SourceEnds(rec, p)
  {
  }

  predicate SameEnds(a: seq<Frame>, b: seq<Frame>) {
    (Fin in a <==> Fin in b) && (Reset in a <==> Reset in b)
  }

  lemma UpEnds(s: Slot, g: Shared, p: Source)
    requires SourceEnds(s.rec, p) && p.up != [] && FromSource(s, g, p.up[0], false).Done?
    ensures var o := FromSource(s, g, p.up[0], false); SourceEnds(o.slot.rec, TakenUp(p, o.out))
  {
    hide Told, ReturnReverse;
    SplitFirst(p.up);
  }

  lemma DownEnds(s: Slot, g: Shared, p: Source)
    requires SourceEnds(s.rec, p) && s.bwd != [] && FromDestination(s, g).Done?
    ensures var o := FromDestination(s, g); SourceEnds(o.slot.rec, p.(down := p.down + o.out))
  {
    hide Told, ReturnReverse;
  }

  lemma GrantedEnds(s: Slot, g: Shared, p: Source, n: nat)
    requires SourceEnds(s.rec, p)
    ensures var o := Grant(s, g, n); SourceEnds(o.slot.rec, p.(down := p.down + o.out))
  {
    hide Told;
  }

  /** Asking for credit and giving it back puts no end on the way. */
  lemma AskingEnds(p: Source)
    ensures SameEnds(Request(p).up, p.up) && SameEnds(Relinquish(p).up, p.up)
    ensures Request(p) == p.(up := Request(p).up, e := p.e.(tx := Request(p).e.tx))
    ensures Relinquish(p) == p.(up := Relinquish(p).up, e := p.e.(tx := Relinquish(p).e.tx))
    ensures Request(p).e.tx.ended == p.e.tx.ended && Relinquish(p).e.tx.ended == p.e.tx.ended
  {
  }

  lemma ReturnEnds(p: Source, amount: nat, flush: bool)
    ensures var q := ReturnCircuit(p, amount, flush);
      && SameEnds(q.up, p.up) && q.e == p.e && q.down == p.down
  {
  }

  /** A source that only its sending half and its frames tell from another. */
  predicate SameButSending(p: Source, q: Source) {
    && SameEnds(q.up, p.up) && q.down == p.down && q.e == p.e.(tx := q.e.tx) && q.e.tx.ended == p.e.tx.ended
  }

  lemma AskingKeeps(p: Source, q: Source)
    requires SameButSending(p, q)
    ensures SameButSending(p, Request(q)) && SameButSending(p, Relinquish(q))
  {
    hide Request, Relinquish;
    AskingEnds(q);
  }

  lemma HearCreditIs(p: Source)
    requires p.down != [] && Hear(p).Took?
    requires p.down[0].CircuitCredit? || p.down[0].Demand? || p.down[0].StreamCredit?
    ensures SameButSending(p.(down := p.down[1..]), Hear(p).source)
  {
    hide Request, Relinquish, SameEnds;
    var q, t := p.(down := p.down[1..]), p.e.tx;
    assert SameEnds(p.up, p.up) by { SameItself(p.up); }
    match p.down[0]
    case CircuitCredit(n) =>
      if p.e.phase == Active {
        AskingKeeps(q, q.(e := p.e.(tx := t.(circuitRequested := t.circuitRequested - n, circuitCredit := t.circuitCredit + n))));
      }
    case Demand(_) => AskingKeeps(q, q.(e := p.e.(tx := t.(circuitCanceling := false, circuitRequested := 0))));
    case StreamCredit(n) => AskingKeeps(q, q.(e := p.e.(tx := t.(sendCredit := t.sendCredit + n))));
  }

  lemma SameItself(ch: seq<Frame>)
    ensures SameEnds(ch, ch)
  {
  }

  lemma HearCreditEnds(rec: Record, p: Source)
    requires SourceEnds(rec, p) && p.down != [] && Hear(p).Took?
    requires p.down[0].CircuitCredit? || p.down[0].Demand? || p.down[0].StreamCredit?
    ensures SourceEnds(rec, Hear(p).source)
  {
    hide Told, Hear;
    SplitFirst(p.down);
    HearCreditIs(p);
  }

  lemma HearMarkEnds(rec: Record, p: Source)
    requires SourceEnds(rec, p) && p.down != [] && (p.down[0].Fin? || p.down[0].Reset?)
    ensures SourceEnds(rec, Hear(p).source)
  {
    hide Told, Drain;
    SplitFirst(p.down);
    FinServes(p.e);
    FinSpares(p.e);
  }

  lemma HearDataEnds(rec: Record, p: Source)
    requires SourceEnds(rec, p) && p.down != [] && p.down[0].Data? && Hear(p).Took?
    requires p.e.phase == Active ==> Window(p.e.rx)
    ensures SourceEnds(rec, Hear(p).source)
  {
    hide Told, Accept, ReturnCircuit, Received;
    SplitFirst(p.down);
    var q := p.(down := p.down[1..]);
    if p.circuitReceive > 0 {
      var q1 := q.(circuitReceive := q.circuitReceive - 1);
      ReturnEnds(q1, 1, false);
      ReturnEnds(q1.(e := q1.e.(phase := Destroying)), 1, false);
      if p.e.phase == Active && CanAccept(p.e.rx) {
        AcceptKeepsWindow(p.e.rx, p.down[0].bytes);
        EndedIsTold(Accept(p.e.rx, p.down[0].bytes));
      }
    }
  }

  lemma EndedIsTold(r: Receiver)
    ensures !r.remoteEnded ==> Told(r)
  {
  }

  lemma HearEnds(rec: Record, p: Source)
    requires SourceEnds(rec, p) && p.down != [] && Hear(p).Took? && (p.e.phase == Active ==> Window(p.e.rx))
    ensures SourceEnds(rec, Hear(p).source)
  {
    hide SourceEnds, Hear, Window;
    match p.down[0]
    case Data(_) => HearDataEnds(rec, p);
    case Fin => HearMarkEnds(rec, p);
    case Reset => HearMarkEnds(rec, p);
    case CircuitCredit(_) => HearCreditEnds(rec, p);
    case Demand(_) => HearCreditEnds(rec, p);
    case StreamCredit(_) => HearCreditEnds(rec, p);
    case _ => HearsNoOther(p);
  }

  lemma HearsNoOther(p: Source)
    requires p.down != [] && Hear(p).Took?
    ensures !p.down[0].Open? && !p.down[0].Release? && !p.down[0].Malformed?
  {
    hide HearGrant, HearAck, HearStreamCredit, HearData, RemoteFin, RemoteReset;
  }

  lemma PerformReadEnds(rec: Record, p: Source)
    requires SourceEnds(rec, p) && Enabled(p.e, Read) && Perform(p, Read).Took? && Window(p.e.rx)
    ensures SourceEnds(rec, Perform(p, Read).source)
  {
    hide Told, ReadNext, ReturnCircuit, Received;
    ReadServes(p.e.rx);
    ReadKeepsWindow(p.e.rx);
    var (r, back) := ReadNext(p.e.rx);
    var q := p.(e := p.e.(rx := r), up := if back == 0 then p.up else p.up + [StreamCredit(back)]);
    ReturnEnds(q, 1, false);
  }

  lemma PerformTeardownEnds(rec: Record, p: Source)
    requires SourceEnds(rec, p) && Enabled(p.e, Teardown) && Perform(p, Teardown).Took?
    ensures SourceEnds(rec, Perform(p, Teardown).source)
  {
    hide Told, ReturnCircuit;
    var q := p.(e := p.e.(phase := Closed, rx := p.e.rx.(queue := [], outstanding := 0)),
                up := if SendsReset(p.e) then p.up + [Reset] else p.up);
    ReturnEnds(q, p.e.rx.outstanding, true);
  }

  lemma PerformEnds(rec: Record, p: Source, act: Act)
    requires SourceEnds(rec, p) && Perform(p, act).Took? && (p.e.phase == Active ==> Window(p.e.rx))
    ensures SourceEnds(rec, Perform(p, act).source)
  {
    if Enabled(p.e, act) && act.Read? {
      PerformReadEnds(rec, p);
    } else if Enabled(p.e, act) && act.Teardown? {
      PerformTeardownEnds(rec, p);
    } else {
      hide Told, Request, Relinquish, Window, ReturnCircuit;
      AskingEnds(p);
      AskingEnds(p.(e := p.e.(tx := p.e.tx.(ended := true))));
    }
  }

  lemma FlushEnds(rec: Record, p: Source)
    requires SourceEnds(rec, p) && Flush(p).Took?
    ensures SourceEnds(rec, Flush(p).source)
  {
    hide Told, ReturnCircuit;
    ReturnEnds(p, 0, true);
  }

  // ------------------------------------------------------------------ runs of routes

  predicate SeatEnds(s: Slot, seat: Seat) {
    seat.honest ==> SourceEnds(EntryRecord(s, seat), seat.source)
  }

  predicate RouteEnds(r: Route) {
    && CircuitEnds(r.circuit) && |r.seats| == |r.circuit.slots|
    && forall i :: 0 <= i < |r.seats| ==> SeatEnds(r.circuit.slots[i], r.seats[i])
  }

  lemma SeatEndsAt(r: Route, i: nat)
    requires RouteEnds(r) && i < |r.seats|
    ensures SlotEnds(r.circuit.slots[i]) && SeatEnds(r.circuit.slots[i], r.seats[i])
  {
  }

  /** The source of leg i takes a step of its own. */
  lemma SettledEnds(r: Route, i: nat, reaction: Reaction)
    requires RouteEnds(r) && Honest(r, i)
    requires reaction.Took? ==> SourceEnds(EntryRecord(r.circuit.slots[i], r.seats[i]), reaction.source)
    ensures RouteEnds(Settled(r, i, reaction))
  {
    hide CircuitEnds, SourceEnds;
    forall j | 0 <= j < |r.seats| ensures SeatEnds(r.circuit.slots[j], Settled(r, i, reaction).seats[j]) {
      SeatEndsAt(r, j);
    }
  }

  lemma WindowOf(r: Route, i: nat)
    requires Agreement(r) && Honest(r, i) && r.seats[i].source.e.phase == Active
    ensures Window(r.seats[i].source.e.rx)
  {
    hide Inv, Bounded, View, Clean, Credits, Ends, Dialogue, Window;
    BoundedOf(r, i);
  }

  lemma OwnMoveEnds(r: Route, move: Move)
    requires Agreement(r) && RouteEnds(r) && (move.Down? || move.Acts? || move.Flushes?)
    ensures RouteEnds(MoveOn(r, move))
  {
    hide Agreement, RouteEnds, SourceEnds, Hear, Perform, Flush, Settled, Window;
    var i := move.i;
    if Honest(r, i) {
      var p, rec := r.seats[i].source, EntryRecord(r.circuit.slots[i], r.seats[i]);
      SourceEndsAt(r, i);
      if p.e.phase == Active { WindowOf(r, i); }
      match move
      case Down(_) =>
        if p.down != [] {
          if Hear(p).Took? { HearEnds(rec, p); }
          SettledEnds(r, i, Hear(p));
        }
      case Acts(_, act) =>
        if Perform(p, act).Took? { PerformEnds(rec, p, act); }
        SettledEnds(r, i, Perform(p, act));
      case Flushes(_) =>
        if Flush(p).Took? { FlushEnds(rec, p); }
        SettledEnds(r, i, Flush(p));
    }
  }

  lemma SourceEndsAt(r: Route, i: nat)
    requires RouteEnds(r) && Honest(r, i)
    ensures SourceEnds(EntryRecord(r.circuit.slots[i], r.seats[i]), r.seats[i].source)
  {
    SeatEndsAt(r, i);
  }

  /** The slot and the seat of one leg change together. */
  lemma LegEnds(r: Route, i: nat, o: Outcome, seat: Seat)
    requires RouteEnds(r) && i < |r.seats| && o.Done? && SlotEnds(o.slot) && SeatEnds(o.slot, seat)
    ensures RouteEnds(r.(circuit := Commit(r.circuit, i, o).0, seats := r.seats[i := seat]))
  {
    hide SlotEnds, SeatEnds;
  }

  lemma UpMoveEnds(r: Route, i: nat)
    requires Agreement(r) && RouteEnds(r) && Honest(r, i)
    ensures RouteEnds(UpMove(r, i))
  {
    hide Agreement, RouteEnds, SlotEnds, SourceEnds, FromSource, Commit;
    var p, s, g := r.seats[i].source, r.circuit.slots[i], r.circuit.shared;
    if p.up != [] && s.rec.live {
      var o := FromSource(s, g, p.up[0], false);
      SeatEndsAt(r, i);
      SourceEndsAt(r, i);
      if o.Done? {
        FromSourceEnds(s, g, p.up[0], false);
        StillLive(s, g, p.up[0]);
        UpEnds(s, g, p);
        LegEnds(r, i, o, r.seats[i].(source := TakenUp(p, o.out)));
      } else {
        Rejecting(r);
      }
    }
  }

  lemma Rejecting(r: Route)
    requires RouteEnds(r)
    ensures RouteEnds(r.(rejected := true))
  {
    hide SeatEnds, CircuitEnds;
  }

  /** Whatever leaves the entry's record of every honest leg alone. */
  lemma CircuitOnlyEnds(r: Route, c: Circuit)
    requires RouteEnds(r) && CircuitEnds(c) && |c.slots| == |r.circuit.slots|
    requires forall j :: 0 <= j < |c.slots| && r.seats[j].honest ==> c.slots[j].rec == r.circuit.slots[j].rec
    ensures RouteEnds(r.(circuit := c))
  {
    hide CircuitEnds, SourceEnds;
    forall j | 0 <= j < |r.seats| ensures SeatEnds(c.slots[j], r.seats[j]) {
      SeatEndsAt(r, j);
    }
  }

  lemma JoinedEnds(r: Route, honest: bool)
    requires Agreement(r) && RouteEnds(r)
    ensures RouteEnds(Joined(r, honest))
  {
    hide Inv, SourceEnds, SeatInv, SlotEnds;
    StepEnds(r.circuit, Activate);
    NewSourceEnds(ACTIVATED.rec, NEW_SOURCE);
    JoinedSeats(r, honest);
  }

  lemma JoinedSeats(r: Route, honest: bool)
    requires RouteEnds(r) && CircuitEnds(Next(r.circuit, Activate).0) && SourceEnds(ACTIVATED.rec, NEW_SOURCE)
    ensures RouteEnds(Joined(r, honest))
  {
    hide SourceEnds, CircuitEnds;
    var c := Next(r.circuit, Activate).0;
    forall j | 0 <= j < |c.slots| ensures SeatEnds(c.slots[j], Joined(r, honest).seats[j]) {
      if j < |r.seats| {
        SeatEndsAt(r, j);
      }
    }
  }

  lemma CloseMoveEnds(r: Route, i: nat)
    requires Agreement(r) && RouteEnds(r)
    ensures RouteEnds(MiddleMove(r, Close(i)))
  {
    hide Inv, SeatInv, SlotEnds, SourceEnds, CircuitEnds;
    StepEnds(r.circuit, Close(i));
    var r' := MiddleMove(r, Close(i));
    forall j | 0 <= j < |r.seats| ensures SeatEnds(r'.circuit.slots[j], r'.seats[j]) {
      SeatEndsAt(r, j);
    }
  }

  lemma ArriveMoveEnds(r: Route, i: nat, f: Frame, tooSoon: bool)
    requires Agreement(r) && RouteEnds(r)
    ensures RouteEnds(MiddleMove(r, Arrive(i, f, tooSoon)))
  {
    hide Inv, SeatInv, SlotEnds, CircuitEnds, SeatEnds, FromSource, CloseLeg;
    if !Honest(r, i) {
      StepEnds(r.circuit, Arrive(i, f, tooSoon));
      ArriveSparesRecords(r, i, f, tooSoon);
      CircuitOnlyEnds(r, Next(r.circuit, Arrive(i, f, tooSoon)).0);
    }
  }

  lemma ArriveSparesRecords(r: Route, i: nat, f: Frame, tooSoon: bool)
    requires |r.seats| == |r.circuit.slots| && !Honest(r, i)
    ensures var c := Next(r.circuit, Arrive(i, f, tooSoon)).0;
      |c.slots| == |r.circuit.slots| && forall j :: 0 <= j < |c.slots| && r.seats[j].honest ==>
        c.slots[j].rec == r.circuit.slots[j].rec
  {
    hide FromSource, CloseLeg;
  }

  lemma GrantMoveEnds(r: Route, i: nat, n: nat)
    requires Agreement(r) && RouteEnds(r)
    ensures RouteEnds(MiddleMove(r, GrantLeg(i, n)))
  {
    hide Inv, SeatInv, SlotEnds, SourceEnds, CircuitEnds, Grant, Commit;
    Running(r);
    if i < |r.seats| {
      var s, g := r.circuit.slots[i], r.circuit.shared;
      var o := Grant(s, g, n);
      SeatEndsAt(r, i);
      GrantEnds(s, g, n);
      GrantKeepsRecord(s, g, n);
      if r.seats[i].honest && s.rec.live {
        GrantedEnds(s, g, r.seats[i].source, n);
      }
      assert r.seats[i].source.down + [] == r.seats[i].source.down;
      LegEnds(r, i, o, Sent(r.seats[i], o.out));
      CommittedOut(r.circuit, i, o);
    }
  }

  lemma Running(r: Route)
    requires Agreement(r)
    ensures !r.circuit.failed && |r.seats| == |r.circuit.slots|
  {
    hide SeatInv, Conserved;
  }

  lemma CommittedOut(c: Circuit, i: nat, o: Outcome)
    requires i < |c.slots| && o.Done?
    ensures Commit(c, i, o).1 == o.out
  {
  }

  lemma GrantKeepsRecord(s: Slot, g: Shared, n: nat)
    ensures Grant(s, g, n).Done? && Grant(s, g, n).slot.rec == s.rec
    ensures !s.rec.live ==> Grant(s, g, n).out == []
  {
  }

  lemma ToEntryMoveEnds(r: Route, i: nat)
    requires Agreement(r) && RouteEnds(r)
    ensures RouteEnds(MiddleMove(r, ToEntry(i)))
  {
    hide Inv, SeatInv, SlotEnds, SourceEnds, CircuitEnds, FromDestination, Commit;
    Running(r);
    if i < |r.seats| {
      var s, g, seat := r.circuit.slots[i], r.circuit.shared, r.seats[i];
      assert seat.source.down + [] == seat.source.down;
      if s.bwd != [] {
        ToEntryAccepted(r, i);
        var o := FromDestination(s, g);
        SeatEndsAt(r, i);
        FromDestinationEnds(s, g);
        FromDestinationKeepsLife(s, g);
        RecordFrozen(s, g);
        if seat.honest && s.rec.live {
          DownEnds(s, g, seat.source);
        }
        LegEnds(r, i, o, Sent(seat, o.out));
        CommittedOut(r.circuit, i, o);
      } else {
        assert r.seats[i := Sent(seat, [])] == r.seats;
      }
    }
  }

  lemma ToEntryAccepted(r: Route, i: nat)
    requires Agreement(r) && i < |r.circuit.slots| && r.circuit.slots[i].bwd != []
    ensures FromDestination(r.circuit.slots[i], r.circuit.shared).Done?
  {
    hide Inv, SlotInv, SeatInv, View, FromDestination;
    ViewOf(r.circuit, i);
    FromDestinationSound(r.circuit.slots[i], r.circuit.shared);
  }

  lemma RecordFrozen(s: Slot, g: Shared)
    requires s.bwd != [] && FromDestination(s, g).Done?
    ensures !s.rec.live ==> FromDestination(s, g).slot.rec == s.rec
  {
  }

  lemma MiddleMoveEnds(r: Route, step: Step)
    requires Agreement(r) && RouteEnds(r)
    ensures RouteEnds(MiddleMove(r, step))
  {
    hide Agreement, RouteEnds, MiddleMove;
    match step
    case Arrive(i, f, tooSoon) => ArriveMoveEnds(r, i, f, tooSoon);
    case Activate => ActivateMoveEnds(r);
    case Close(i) => CloseMoveEnds(r, i);
    case GrantLeg(i, n) => GrantMoveEnds(r, i, n);
    case ToEntry(i) => ToEntryMoveEnds(r, i);
    case _ => OtherMoveEnds(r, step);
  }

  lemma ActivateMoveEnds(r: Route)
    requires Agreement(r) && RouteEnds(r)
    ensures RouteEnds(MiddleMove(r, Activate))
  {
    hide Agreement, RouteEnds, Joined;
    JoinedEnds(r, true);
  }

  /** What the destination and the shared link do leaves the entry's records alone. */
  lemma OtherMoveEnds(r: Route, step: Step)
    requires Agreement(r) && RouteEnds(r)
    requires !step.Arrive? && !step.Activate? && !step.Close? && !step.GrantLeg? && !step.ToEntry?
    ensures RouteEnds(MiddleMove(r, step))
  {
    hide Inv, SeatInv, SeatEnds, SlotEnds, CircuitEnds;
    StepEnds(r.circuit, step);
    RecordsKept(r.circuit, step);
    CircuitOnlyEnds(r, Next(r.circuit, step).0);
    hide Next;
  }

  lemma RecordsKept(c: Circuit, step: Step)
    requires !step.Arrive? && !step.Activate? && !step.Close? && !step.GrantLeg? && !step.ToEntry?
    ensures var d := Next(c, step).0;
      |d.slots| == |c.slots| && forall j :: 0 <= j < |c.slots| ==> d.slots[j].rec == c.slots[j].rec
  {
    if step.ToDestination? || step.GrantStream? || step.Reclaim? || step.Application? {
      hide Next;
      DestinationSparesLegs(c, step);
    }
  }

  lemma {:induction false} JourneyEnds(moves: seq<Move>)
    ensures RouteEnds(Journey(moves))
  {
    hide Agreement, MoveOn, SeatEnds;
    if moves != [] {
      var n := |moves| - 1;
      JourneyEnds(moves[..n]);
      JourneyAgrees(moves[..n]);
      MoveEnds(Journey(moves[..n]), moves[n]);
    }
  }

  lemma MoveEnds(r: Route, move: Move)
    requires Agreement(r) && RouteEnds(r)
    ensures RouteEnds(MoveOn(r, move))
  {
    hide Agreement, RouteEnds, MiddleMove, UpMove, Joined;
    match move
    case Middle(step) => MiddleMoveEnds(r, step);
    case Stranger => JoinedEnds(r, false);
    case Up(i) => if Honest(r, i) { UpMoveEnds(r, i); }
    case _ => OwnMoveEnds(r, move);
  }

  /** An end that a writer announced and that is not under way any more has reached the live
      reader, which has been told of it, and given everything written, once it has read all. */
  predicate EndReaches(writer: Stream, reader: Stream, near: seq<Frame>, far: seq<Frame>) {
    writer.tx.ended && Fin !in near && Fin !in far && reader.phase == Active ==>
      && reader.rx.remoteEnded
      && (reader.rx.queue == [] && !reader.rx.delivered ==> reader.rx.eof && reader.rx.pushed == writer.tx.written)
  }

  /** A stream that is gone has taken the other with it once no RESET is under way, unless
      both directions had ended. */
  predicate ResetReaches(gone: Stream, other: Stream, near: seq<Frame>, far: seq<Frame>) {
    gone.phase == Closed && Reset !in near && Reset !in far && !BothEnded(gone) ==> !Receiving(other)
  }

  /** Both readers of a leg have been told what there is to tell, and while the leg lives,
      whatever ends at one side reaches the other. */
  predicate AllEndsReach(s: Slot, p: Source) {
    && (s.dst.phase == Active ==> Told(s.dst.rx)) && (p.e.phase == Active ==> Told(p.e.rx))
    && (s.rec.live ==>
          && EndReaches(p.e, s.dst, p.up, s.fwd) && EndReaches(s.dst, p.e, s.bwd, p.down)
          && ResetReaches(p.e, s.dst, p.up, s.fwd) && ResetReaches(s.dst, p.e, s.bwd, p.down))
  }

  /** In every run with honest and dishonest sources, on every honest leg and in both
      directions: ends and resets reach the other side, and a reader that has nothing left to
      read after the end was announced to it has been told. */
  lemma {:induction false} EveryEndReaches(moves: seq<Move>)
    ensures forall i: nat :: Honest(Journey(moves), i) ==>
      AllEndsReach(Journey(moves).circuit.slots[i], Journey(moves).seats[i].source)
  {
    JourneyEnds(moves);
    Delivery.ReadersSeePrefixes(moves);
    var r := Journey(moves);
    hide Journey, SlotEnds, SourceEnds, AllEndsReach, Delivery.GivenPrefixes;
    forall i: nat | Honest(r, i) ensures AllEndsReach(r.circuit.slots[i], r.seats[i].source) {
      SeatEndsAt(r, i);
      EndsReach(r.circuit.slots[i], EntryRecord(r.circuit.slots[i], r.seats[i]), r.seats[i].source);
    }
  }

  lemma EndsReach(s: Slot, rec: Record, p: Source)
    requires SlotEnds(s) && SourceEnds(rec, p) && Delivery.GivenPrefixes(p.e, s.dst) && (s.rec.live ==> rec == s.rec)
    ensures AllEndsReach(s, p)
  {
  }
}
