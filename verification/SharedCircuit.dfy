/**
 An entry relay and a destination that share one circuit, with any number of source
 legs attached to the entry.  Nothing is assumed about the source legs: a leg may send
 any frame at any time.  The shared link keeps the order of one stream's frames only.

 Every handler is a function on one stream's slot and the state shared by the circuit;
 `Refused` is the outcome in which the code throws.
 */
module SharedCircuit {
  import opened Frames
  import opened PoolLeg
  import opened Endpoint

  /** What the entry keeps for one source leg; `live` while it is in `sources`. */
  datatype Record = Record(
    live: bool,
    sourceEnded: bool,
    destinationEnded: bool,
    resetReceived: bool,
    sendCredit: nat,
    receiveCredit: nat,
    reverseInFlight: nat)

  /** One activated stream: the entry record and its pool leg, the two FIFO channels that
      the shared link gives this stream id, and the destination's stream and pool leg. */
  datatype Slot = Slot(
    rec: Record,
    leg: Leg,
    fwd: seq<Frame>,
    bwd: seq<Frame>,
    dst: Stream,
    dleg: Leg)

  /** What all streams share: the entry's forward pool and reverse window, the
      destination's receive window and send pool, and the circuit-level credit channels. */
  datatype Shared = Shared(
    available: nat,
    inFlight: nat,
    reverseCredit: nat,
    reversePending: nat,
    receiveCredit: nat,
    returnPending: nat,
    dAvailable: nat,
    dInFlight: nat,
    toEntry: seq<nat>,
    toDst: seq<nat>)

  datatype Outcome = Done(slot: Slot, shared: Shared, out: seq<Frame>) | Refused

  const ACTIVATED := Slot(
    Record(true, false, false, false, STREAM_WINDOW, STREAM_WINDOW, 0),
    FRESH, [Open], [], Fresh(Unopened), FRESH)

  // ---------------------------------------------------------------- credit returns

  /** `_returnReverse` at the entry. */
  function ReturnReverse(g: Shared, amount: nat, flush: bool): Shared {
    var pending := g.reversePending + amount;
    if pending == 0 || (!flush && pending < CIRCUIT_CREDIT_BATCH) then
      g.(reversePending := pending)
    else
      g.(reversePending := 0, reverseCredit := g.reverseCredit + pending, toDst := g.toDst + [pending])
  }

  /** `consumed` at the destination. */
  function Consumed(g: Shared, amount: nat, flush: bool): Shared {
    var pending := g.returnPending + amount;
    if pending == 0 || (!flush && pending < CIRCUIT_CREDIT_BATCH) then
      g.(returnPending := pending)
    else
      g.(returnPending := 0, receiveCredit := g.receiveCredit + pending, toEntry := g.toEntry + [pending])
  }

  /** Both returns throw when the window would exceed its size. */
  predicate Overflowed(g: Shared) {
    g.reverseCredit > CIRCUIT_WINDOW || g.receiveCredit > CIRCUIT_WINDOW
  }

  function Settle(s: Slot, g: Shared, out: seq<Frame>): Outcome {
    if Overflowed(g) then Refused else Done(s, g, out)
  }

  // ------------------------------------------------------------------------- entry

  /** `_fromSource`: a frame arrives on a source leg. */
  function FromSource(s: Slot, g: Shared, f: Frame, tooSoon: bool): Outcome {
    var r := s.rec;
    if !WellFormed(f) then Refused else
    match f
    case CircuitCredit(n) =>
      if n > r.reverseInFlight then Refused
      else Settle(s.(rec := r.(reverseInFlight := r.reverseInFlight - n)), ReturnReverse(g, n, false), [])
    case Demand(n) =>
      if (n != 0 && r.sourceEnded) || !MayDemand(s.leg, n, tooSoon) then Refused
      else if n == 0 then Done(s.(leg := Cancelled(s.leg)), g, [Demand(0)])
      else Done(s.(leg := Demanded(s.leg, n)), g, [])
    case Release(n) =>
      if n > s.leg.granted then Refused
      else Done(s.(leg := Returned(s.leg, n)), g.(available := g.available + n), [])
    case Fin => Done(s.(rec := r.(sourceEnded := true), fwd := s.fwd + [f]), g, [])
    case Reset => Done(s.(rec := r.(resetReceived := true), fwd := s.fwd + [f]), g, [])
    case Data(_) =>
      if r.sourceEnded || r.sendCredit == 0 || s.leg.granted == 0 then Refused
      else Done(s.(rec := r.(sendCredit := r.sendCredit - 1), leg := Spent(s.leg, 1), fwd := s.fwd + [f]),
                g.(inFlight := g.inFlight + 1), [])
    case StreamCredit(n) =>
      if r.receiveCredit + n > STREAM_WINDOW then Refused
      else Done(s.(rec := r.(receiveCredit := r.receiveCredit + n), fwd := s.fwd + [f]), g, [])
    case _ => Refused
  }

  /** The leg's `close` listener: the pool and the reverse window get everything back. */
  function CloseLeg(s: Slot, g: Shared): Outcome {
    var r := s.rec;
    if !r.live then Done(s, g, []) else
    var silent := r.resetReceived || (r.sourceEnded && r.destinationEnded);
    Settle(s.(rec := r.(live := false, reverseInFlight := 0),
              leg := s.leg.(granted := 0, wanted := 0, demandOpen := false),
              fwd := if silent then s.fwd else s.fwd + [Reset]),
           ReturnReverse(g.(available := g.available + s.leg.granted), r.reverseInFlight, true), [])
  }

  /** One grant of `_distribute` and the CREDIT that `onGrant` sends down the leg. */
  function Grant(s: Slot, g: Shared, amount: nat): Outcome {
    if !s.rec.live || amount == 0 || amount > s.leg.wanted || amount > g.available then Done(s, g, [])
    else Done(s.(leg := Granted(s.leg, amount)), g.(available := g.available - amount), [CircuitCredit(amount)])
  }

  /** `_receive` at the entry, for a frame of one stream. */
  function FromDestination(s: Slot, g: Shared): Outcome
    requires s.bwd != []
  {
    var f := s.bwd[0];
    var s1 := s.(bwd := s.bwd[1..]);
    var r := s.rec;
    if f.Data? && g.reverseCredit == 0 then Refused else
    var g1 := if f.Data? then g.(reverseCredit := g.reverseCredit - 1) else g;
    if !r.live then
      Settle(s1, if f.Data? then ReturnReverse(g1, 1, false) else g1, [])
    else match f
      case Fin => Done(s1.(rec := r.(destinationEnded := true)), g1, [f])
      case Reset => Done(s1.(rec := r.(resetReceived := true)), g1, [f])
      case Data(_) =>
        if r.destinationEnded || r.receiveCredit == 0 then Refused
        else Done(s1.(rec := r.(reverseInFlight := r.reverseInFlight + 1,
                                receiveCredit := r.receiveCredit - 1)), g1, [f])
      case StreamCredit(n) =>
        if r.sendCredit + n > STREAM_WINDOW then Refused
        else Done(s1.(rec := r.(sendCredit := r.sendCredit + n)), g1, [f])
      case _ => Refused
  }

  // ------------------------------------------------------------------- destination

  /** `_requestCircuit` of a destination stream: a local demand on the send pool. */
  function DstRequest(s: Slot, g: Shared): Outcome {
    var t := s.dst.tx;
    if s.dst.phase != Active || !WantsCircuit(t) then Done(s, g, []) else
    var amount := CIRCUIT_WINDOW - t.circuitCredit;
    if !MayDemand(s.dleg, amount, false) then Refused
    else Done(s.(dst := s.dst.(tx := t.(circuitRequested := amount)), dleg := Demanded(s.dleg, amount)), g, [])
  }

  /** `_releaseCircuit` of a destination stream: cancel, then release what is unspent. */
  function DstRelease(s: Slot, g: Shared): Outcome {
    var t := s.dst.tx;
    if t.circuitCredit > s.dleg.granted then Refused
    else Done(s.(dst := s.dst.(tx := t.(circuitRequested := 0, circuitCredit := 0)),
                 dleg := Returned(Cancelled(s.dleg), t.circuitCredit)),
              g.(dAvailable := g.dAvailable + t.circuitCredit), [])
  }

  /** A pool grant and the `grantCircuit` it calls back into. */
  function DstGrant(s: Slot, g: Shared, amount: nat): Outcome {
    var t := s.dst.tx;
    if amount == 0 || amount > s.dleg.wanted || amount > g.dAvailable then Done(s, g, []) else
    var s1 := s.(dleg := Granted(s.dleg, amount));
    var g1 := g.(dAvailable := g.dAvailable - amount);
    if s.dst.phase != Active then Done(s1, g1, [])
    else if amount > t.circuitRequested || t.circuitCredit + amount > CIRCUIT_WINDOW then Refused
    else
      var s2 := s1.(dst := s.dst.(tx := t.(circuitRequested := t.circuitRequested - amount,
                                           circuitCredit := t.circuitCredit + amount)));
      if t.sendCredit == 0 || t.ended then DstRelease(s2, g1) else Done(s2, g1, [])
  }

  /** `_receive` at the destination, for a frame of one stream.  `admit` is the server's
      answer to an OPEN; `newest` says that the id lies above every id opened so far. */
  function FromEntry(s: Slot, g: Shared, newest: bool, admit: bool): Outcome
    requires s.fwd != []
  {
    var f := s.fwd[0];
    var s1 := s.(fwd := s.fwd[1..]);
    var e := s.dst;
    match f
    case Open =>
      if !newest then Refused
      else if admit then Done(s1.(dst := Fresh(Active), dleg := FRESH), g, [])
      else Done(s1.(dst := Fresh(Closed), dleg := FRESH, bwd := s.bwd + [Reset]), g, [])
    case Data(bytes) =>
      if g.receiveCredit == 0 || e.phase == Unopened then Refused else
      var g1 := g.(receiveCredit := g.receiveCredit - 1);
      if e.phase != Active then Settle(s1, Consumed(g1, 1, false), [])
      else if e.rx.remoteEnded then Settle(s1.(dst := e.(phase := Destroying)), Consumed(g1, 1, false), [])
      else if !CanAccept(e.rx) then Refused
      else Done(s1.(dst := e.(rx := Accept(e.rx, bytes))), g1, [])
    case Fin => Done(if e.phase == Unopened then s1 else s1.(dst := RemoteFin(e)), g, [])
    case Reset => Done(if e.phase == Unopened then s1 else s1.(dst := RemoteReset(e)), g, [])
    case StreamCredit(n) =>
      if e.phase == Unopened then Refused
      else if e.phase != Active then Done(s1, g, [])
      else if n == 0 || e.tx.sendCredit + n > STREAM_WINDOW then Refused
      else
        var s2 := s1.(dst := e.(tx := e.tx.(sendCredit := e.tx.sendCredit + n)));
        if e.tx.writing then DstRequest(s2, g) else Done(s2, g, [])
    case _ => Refused
  }

  /** What the destination application and its timers do to one stream. */
  function DstAct(s: Slot, g: Shared, act: Act): Outcome {
    var e := s.dst;
    var t := e.tx;
    if !Enabled(e, act) then Done(s, g, []) else
    match act
    case StartWriting => Done(s.(dst := e.(tx := t.(writing := true))), g, [])
    case StopWriting => Done(s.(dst := e.(tx := t.(writing := false))), g, [])
    case Poll => if t.sendCredit == 0 then DstRelease(s, g) else DstRequest(s, g)
    case Idle => DstRelease(s, g)
    case Send(bytes) =>
      if s.dleg.granted == 0 then Refused
      else Done(s.(dst := e.(tx := t.(sendCredit := t.sendCredit - 1, circuitCredit := t.circuitCredit - 1,
                                      written := t.written + bytes)),
                   dleg := Spent(s.dleg, 1), bwd := s.bwd + [Data(bytes)]),
                g.(dInFlight := g.dInFlight + 1), [])
    case Final =>
      var released := DstRelease(s.(dst := e.(tx := t.(ended := true))), g);
      if released.Refused? then Refused
      else released.(slot := released.slot.(bwd := released.slot.bwd + [Fin]))
    case Read =>
      if e.rx.delivered && e.rx.outstanding == 0 then Refused else
      var (r, back) := ReadNext(e.rx);
      Settle(s.(dst := e.(rx := r), bwd := if back == 0 then s.bwd else s.bwd + [StreamCredit(back)]),
             if e.rx.delivered then Consumed(g, 1, false) else g, [])
    case Fail => Done(s.(dst := e.(phase := Destroying)), g, [])
    case Teardown =>
      Settle(s.(dst := e.(phase := Closed, rx := e.rx.(queue := [], outstanding := 0)),
                dleg := s.dleg.(granted := 0, wanted := 0, demandOpen := false),
                bwd := if SendsReset(e) then s.bwd + [Reset] else s.bwd),
             Consumed(g.(dAvailable := g.dAvailable + s.dleg.granted), e.rx.outstanding, true), [])
  }

  // -------------------------------------------------------------------- invariants

  /** The frames one stream of the shared link carries once it is open. */
  predicate StreamFrame(f: Frame) {
    WellFormed(f) && (f.Data? || f.Fin? || f.Reset? || f.StreamCredit?)
  }

  predicate StreamFrames(ch: seq<Frame>) {
    forall i :: 0 <= i < |ch| ==> StreamFrame(ch[i])
  }

  /** What holds of every stream on its own. */
  predicate SlotInv(s: Slot) {
    && SlotShape(s)
    && ForwardWindow(s)
    && ReverseWindow(s)
    && EndsLast(s)
  }

  predicate SlotShape(s: Slot) {
    && StreamFrames(s.bwd)
    && |s.dst.rx.queue| <= s.dst.rx.outstanding <= STREAM_WINDOW
    && (!s.rec.live ==> s.leg.granted == 0 && s.leg.wanted == 0 && s.rec.reverseInFlight == 0)
    && (if s.dst.phase == Unopened
        then s.dst == Fresh(Unopened) && s.bwd == [] && s.dleg == FRESH
             && s.fwd != [] && s.fwd[0] == Open && StreamFrames(s.fwd[1..])
        else StreamFrames(s.fwd))
    && (s.dst.phase == Active ==>
          && s.dleg.granted == s.dst.tx.circuitCredit && s.dleg.wanted == s.dst.tx.circuitRequested
          && s.dleg.granted + s.dleg.wanted <= CIRCUIT_WINDOW && !s.dst.tx.circuitCanceling)
    && (s.dst.phase == Destroying ==> s.dst.tx.circuitCredit <= s.dleg.granted)
    && (s.dst.phase == Closed ==> s.dst.rx.outstanding == 0 && s.dleg.granted == 0 && s.dleg.wanted == 0)
  }

  /** The 512-cell window of source-to-destination DATA. */
  predicate ForwardWindow(s: Slot) {
    && (s.dst.phase == Active ==> Window(s.dst.rx))
    && (Receiving(s.dst) ==> Total(Cell, s.fwd) <= s.dst.rx.receiveCredit)
    && (s.rec.live ==> s.rec.sendCredit + Total(StreamGrant, s.bwd) <= STREAM_WINDOW)
    && (s.rec.live && Receiving(s.dst) ==>
          s.rec.sendCredit + Total(StreamGrant, s.bwd) + Total(Cell, s.fwd) == s.dst.rx.receiveCredit)
  }

  /** The 512-cell window of destination-to-source DATA. */
  predicate ReverseWindow(s: Slot) {
    && (Receiving(s.dst) ==> s.dst.tx.sendCredit + Total(StreamGrant, s.fwd) <= STREAM_WINDOW)
    && (s.rec.live ==> Total(Cell, s.bwd) <= s.rec.receiveCredit <= STREAM_WINDOW)
    && (s.rec.live && Receiving(s.dst) ==>
          s.dst.tx.sendCredit + Total(StreamGrant, s.fwd) + Total(Cell, s.bwd) == s.rec.receiveCredit)
  }

  predicate EndsLast(s: Slot) {
    && NoneAfter(Fins, Cell, s.bwd) && NoneAfter(Fins, Cell, s.fwd)
    && (!s.dst.tx.ended ==> Total(Fins, s.bwd) == 0 && !s.rec.destinationEnded)
    && (s.dst.tx.ended ==> !s.dst.tx.writing)
    && (s.rec.destinationEnded ==> Total(Cell, s.bwd) == 0)
    && (!s.rec.sourceEnded ==> Total(Fins, s.fwd) == 0 && !s.dst.rx.remoteEnded)
    && (s.dst.rx.remoteEnded ==> Total(Cell, s.fwd) == 0)
  }

  /** What one stream can see of the conservation laws of the whole circuit. */
  predicate View(s: Slot, g: Shared) {
    && g.available + s.leg.granted + g.inFlight <= CIRCUIT_WINDOW
    && g.receiveCredit + s.dst.rx.outstanding + g.returnPending <= CIRCUIT_WINDOW
    && Total(Cell, s.fwd) + (CIRCUIT_WINDOW - g.receiveCredit) + Sum(g.toEntry) <= g.inFlight
    && g.dAvailable + s.dleg.granted + g.dInFlight <= CIRCUIT_WINDOW
    && g.reverseCredit + s.rec.reverseInFlight + g.reversePending <= CIRCUIT_WINDOW
    && Total(Cell, s.bwd) + (CIRCUIT_WINDOW - g.reverseCredit) + Sum(g.toDst) <= g.dInFlight
  }

  predicate Positive(amounts: seq<nat>) {
    forall i :: 0 <= i < |amounts| ==> amounts[i] > 0
  }

  /** A change of one stream and the shared state that creates and destroys no cell of
      any of the six conserved windows. */
  predicate Balanced(s: Slot, g: Shared, s': Slot, g': Shared) {
    && g'.available + s'.leg.granted + g'.inFlight == g.available + s.leg.granted + g.inFlight
    && g'.receiveCredit + s'.dst.rx.outstanding + g'.returnPending
       == g.receiveCredit + s.dst.rx.outstanding + g.returnPending
    && g'.inFlight + g'.receiveCredit - Total(Cell, s'.fwd) - Sum(g'.toEntry)
       == g.inFlight + g.receiveCredit - Total(Cell, s.fwd) - Sum(g.toEntry)
    && g'.dAvailable + s'.dleg.granted + g'.dInFlight == g.dAvailable + s.dleg.granted + g.dInFlight
    && g'.reverseCredit + s'.rec.reverseInFlight + g'.reversePending
       == g.reverseCredit + s.rec.reverseInFlight + g.reversePending
    && g'.dInFlight + g'.reverseCredit - Total(Cell, s'.bwd) - Sum(g'.toDst)
       == g.dInFlight + g.reverseCredit - Total(Cell, s.bwd) - Sum(g.toDst)
    && (Positive(g.toEntry) && Positive(g.toDst) ==> Positive(g'.toEntry) && Positive(g'.toDst))
  }

  /** The obligation of every handler. */
  predicate Sound(s: Slot, g: Shared, o: Outcome) {
    o.Done? && SlotInv(o.slot) && Balanced(s, g, o.slot, o.shared)
  }

  // -------------------------------------------------------------- handlers are sound

  lemma ReturnReverseMoves(g: Shared, amount: nat, flush: bool)
    ensures var g' := ReturnReverse(g, amount, flush);
      && g'.reverseCredit + g'.reversePending == g.reverseCredit + g.reversePending + amount
      && g'.reverseCredit - Sum(g'.toDst) == g.reverseCredit - Sum(g.toDst)
      && g' == g.(reverseCredit := g'.reverseCredit, reversePending := g'.reversePending, toDst := g'.toDst)
      && (Positive(g.toDst) ==> Positive(g'.toDst))
      && (flush ==> g'.reversePending == 0)
      && g'.reversePending < CIRCUIT_CREDIT_BATCH
  {
    SumAppend(g.toDst, g.reversePending + amount);
  }

  lemma ConsumedMoves(g: Shared, amount: nat, flush: bool)
    ensures var g' := Consumed(g, amount, flush);
      && g'.receiveCredit + g'.returnPending == g.receiveCredit + g.returnPending + amount
      && g'.receiveCredit - Sum(g'.toEntry) == g.receiveCredit - Sum(g.toEntry)
      && g' == g.(receiveCredit := g'.receiveCredit, returnPending := g'.returnPending, toEntry := g'.toEntry)
      && (Positive(g.toEntry) ==> Positive(g'.toEntry))
      && (flush ==> g'.returnPending == 0)
      && g'.returnPending < CIRCUIT_CREDIT_BATCH
  {
    SumAppend(g.toEntry, g.returnPending + amount);
  }

  lemma FramesPush(ch: seq<Frame>, f: Frame)
    requires StreamFrames(ch) && StreamFrame(f)
    ensures StreamFrames(ch + [f])
  {
    hide StreamFrame;
  }

  /** The same behind a first frame of another kind. */
  lemma FramesPushTail(ch: seq<Frame>, f: Frame)
    requires ch != [] && StreamFrames(ch[1..]) && StreamFrame(f)
    ensures StreamFrames((ch + [f])[1..])
  {
    FramesPush(ch[1..], f);
    assert (ch + [f])[1..] == ch[1..] + [f];
  }

  lemma FramesPop(ch: seq<Frame>)
    requires ch != []
    ensures StreamFrames(ch) ==> StreamFrame(ch[0]) && StreamFrames(ch[1..])
  {
    hide StreamFrame;
  }

  lemma FinPush(ch: seq<Frame>, f: Frame)
    requires NoneAfter(Fins, Cell, ch)
    ensures (f.Data? ==> Total(Fins, ch) == 0) ==> NoneAfter(Fins, Cell, ch + [f])
  {
    if f.Data? ==> Total(Fins, ch) == 0 {
      NoneAfterPush(Fins, Cell, ch, f);
    }
  }

  lemma FromSourceKeeps(s: Slot, g: Shared, f: Frame, tooSoon: bool)
    requires SlotInv(s) && s.rec.live
    requires FromSource(s, g, f, tooSoon).Done?
    ensures SlotInv(FromSource(s, g, f, tooSoon).slot)
  {
    hide Total, NoneAfter, Sum, StreamFrames, ReturnReverse, Window;
    if StreamFrame(f) && StreamFrames(s.fwd) { FramesPush(s.fwd, f); }
    if s.fwd != [] && StreamFrame(f) && StreamFrames(s.fwd[1..]) { FramesPushTail(s.fwd, f); }
    Pushed(s.fwd, f);
    FinPush(s.fwd, f);
  }

  lemma FromSourceBalances(s: Slot, g: Shared, f: Frame, tooSoon: bool)
    requires FromSource(s, g, f, tooSoon).Done?
    ensures var o := FromSource(s, g, f, tooSoon); Balanced(s, g, o.slot, o.shared)
  {
    hide Total, NoneAfter, Sum, StreamFrames, ReturnReverse;
    Pushed(s.fwd, f);
    if f.CircuitCredit? {
      ReturnReverseMoves(g, f.amount, false);
    }
  }

  lemma CloseLegKeeps(s: Slot, g: Shared)
    requires SlotInv(s) && View(s, g)
    ensures CloseLeg(s, g).Done? && SlotInv(CloseLeg(s, g).slot)
  {
    hide Total, NoneAfter, Sum, StreamFrames, ReturnReverse, Window;
    if StreamFrames(s.fwd) { FramesPush(s.fwd, Reset); }
    if s.fwd != [] && StreamFrames(s.fwd[1..]) { FramesPushTail(s.fwd, Reset); }
    Pushed(s.fwd, Reset);
    FinPush(s.fwd, Reset);
    ReturnReverseMoves(g.(available := g.available + s.leg.granted), s.rec.reverseInFlight, true);
  }

  lemma CloseLegBalances(s: Slot, g: Shared)
    requires CloseLeg(s, g).Done?
    ensures var o := CloseLeg(s, g); Balanced(s, g, o.slot, o.shared)
  {
    hide Total, NoneAfter, Sum, StreamFrames, ReturnReverse;
    Pushed(s.fwd, Reset);
    ReturnReverseMoves(g.(available := g.available + s.leg.granted), s.rec.reverseInFlight, true);
  }

  lemma GrantSound(s: Slot, g: Shared, amount: nat)
    requires SlotInv(s) && View(s, g)
    ensures Sound(s, g, Grant(s, g, amount))
  {
    hide Total, NoneAfter, Sum, StreamFrames;
  }

  lemma FromDestinationDataKeeps(s: Slot, g: Shared)
    requires SlotInv(s) && View(s, g) && s.bwd != [] && s.bwd[0].Data?
    ensures FromDestination(s, g).Done? && SlotInv(FromDestination(s, g).slot)
  {
    hide Total, NoneAfter, Sum, StreamFrames, ReturnReverse;
    Popped(s.bwd);
    FramesPop(s.bwd);
    assert g.reverseCredit > 0;
    ReturnReverseMoves(g.(reverseCredit := g.reverseCredit - 1), 1, false);
  }

  lemma FromDestinationDataBalances(s: Slot, g: Shared)
    requires s.bwd != [] && s.bwd[0].Data? && FromDestination(s, g).Done?
    ensures var o := FromDestination(s, g); Balanced(s, g, o.slot, o.shared)
  {
    hide Total, NoneAfter, Sum, StreamFrames, ReturnReverse;
    Popped(s.bwd);
    FramesPop(s.bwd);
    ReturnReverseMoves(g.(reverseCredit := g.reverseCredit - 1), 1, false);
  }

  lemma FromDestinationCreditSound(s: Slot, g: Shared)
    requires SlotInv(s) && View(s, g) && s.bwd != [] && s.bwd[0].StreamCredit?
    ensures Sound(s, g, FromDestination(s, g))
  {
    hide Total, NoneAfter, Sum, StreamFrames;
    Popped(s.bwd);
    FramesPop(s.bwd);
  }

  lemma FromDestinationEndSound(s: Slot, g: Shared)
    requires SlotInv(s) && View(s, g) && s.bwd != [] && (s.bwd[0].Fin? || s.bwd[0].Reset?)
    ensures Sound(s, g, FromDestination(s, g))
  {
    hide Total, NoneAfter, Sum, StreamFrames;
    Popped(s.bwd);
    FramesPop(s.bwd);
  }

  lemma FromDestinationSound(s: Slot, g: Shared)
    requires SlotInv(s) && View(s, g) && s.bwd != []
    ensures Sound(s, g, FromDestination(s, g))
  {
    assert StreamFrame(s.bwd[0]);
    if s.bwd[0].Data? {
      FromDestinationDataKeeps(s, g);
      FromDestinationDataBalances(s, g);
    } else if s.bwd[0].StreamCredit? {
      FromDestinationCreditSound(s, g);
    } else {
      FromDestinationEndSound(s, g);
    }
  }

  lemma DstReleaseSound(s: Slot, g: Shared)
    requires SlotInv(s) && View(s, g) && Attached(s.dst)
    ensures Sound(s, g, DstRelease(s, g))
  {
    hide Total, NoneAfter, Sum, StreamFrames;
  }

  lemma DstRequestSound(s: Slot, g: Shared)
    requires SlotInv(s) && View(s, g)
    ensures Sound(s, g, DstRequest(s, g))
  {
    hide Total, NoneAfter, Sum, StreamFrames;
  }

  lemma DstGrantKeeps(s: Slot, g: Shared, amount: nat)
    requires SlotInv(s)
    ensures DstGrant(s, g, amount).Done?
    ensures SlotInv(DstGrant(s, g, amount).slot)
  {
    hide Total, NoneAfter, Sum, StreamFrames;
  }

  lemma DstGrantBalances(s: Slot, g: Shared, amount: nat)
    requires DstGrant(s, g, amount).Done?
    ensures var o := DstGrant(s, g, amount); Balanced(s, g, o.slot, o.shared)
  {
    hide Total, NoneAfter, Sum, StreamFrames;
  }

  lemma AcceptFits(r: Receiver, data: seq<byte>)
    requires Window(r) && r.receiveCredit > 0
    ensures var a := Accept(r, data);
      && CanAccept(r) && Window(a) && |a.queue| <= a.outstanding <= STREAM_WINDOW
      && a.receiveCredit == r.receiveCredit - 1 && a.outstanding == r.outstanding + 1 && a.remoteEnded == r.remoteEnded
  {
    AcceptKeepsWindow(r, data);
    hide Accept;
  }

  lemma FromEntryDataKeeps(s: Slot, g: Shared)
    requires SlotInv(s) && View(s, g) && s.fwd != [] && s.fwd[0].Data?
    ensures FromEntry(s, g, false, false).Done? && SlotInv(FromEntry(s, g, false, false).slot)
  {
    hide Total, NoneAfter, Sum, StreamFrames, Accept, Consumed, Window, CanAccept;
    Popped(s.fwd);
    FramesPop(s.fwd);
    if s.dst.phase == Active && s.dst.rx.receiveCredit > 0 {
      AcceptFits(s.dst.rx, s.fwd[0].bytes);
    }
    if g.receiveCredit > 0 {
      ConsumedMoves(g.(receiveCredit := g.receiveCredit - 1), 1, false);
    }
  }

  lemma FromEntryDataBalances(s: Slot, g: Shared)
    requires s.fwd != [] && s.fwd[0].Data? && FromEntry(s, g, false, false).Done?
    requires s.dst.phase == Active ==> Window(s.dst.rx)
    ensures var o := FromEntry(s, g, false, false); Balanced(s, g, o.slot, o.shared)
  {
    hide Total, Sum, Accept, Consumed, Window;
    Popped(s.fwd);
    if s.dst.phase == Active && s.dst.rx.receiveCredit > 0 {
      AcceptFits(s.dst.rx, s.fwd[0].bytes);
    }
    ConsumedMoves(g.(receiveCredit := g.receiveCredit - 1), 1, false);
  }

  lemma FromEntryDataSound(s: Slot, g: Shared)
    requires SlotInv(s) && View(s, g) && s.fwd != [] && s.fwd[0].Data?
    ensures Sound(s, g, FromEntry(s, g, false, false))
  {
    hide SlotShape, ReverseWindow, EndsLast, View, Balanced, Window, FromEntry;
    FromEntryDataKeeps(s, g);
    FromEntryDataBalances(s, g);
  }

  lemma FromEntryOpenSound(s: Slot, g: Shared, admit: bool)
    requires SlotInv(s) && s.fwd != [] && s.fwd[0].Open?
    ensures Sound(s, g, FromEntry(s, g, true, admit))
  {
    hide Total, NoneAfter, Sum, StreamFrames;
    Popped(s.fwd);
    FramesPop(s.fwd);
    Empty(s.bwd);
    FramesPush(s.bwd, Reset);
    Pushed(s.bwd, Reset);
    FinPush(s.bwd, Reset);
  }

  lemma FromEntryEndSound(s: Slot, g: Shared)
    requires SlotInv(s) && s.fwd != [] && (s.fwd[0].Fin? || s.fwd[0].Reset?)
    ensures Sound(s, g, FromEntry(s, g, false, false))
  {
    hide Total, NoneAfter, Sum, StreamFrames, Drain, Window;
    Popped(s.fwd);
    FramesPop(s.fwd);
    FinKeepsWindow(s.dst.rx);
  }

  lemma FromEntryCreditSound(s: Slot, g: Shared)
    requires SlotInv(s) && View(s, g) && s.fwd != [] && s.fwd[0].StreamCredit?
    ensures Sound(s, g, FromEntry(s, g, false, false))
  {
    if s.dst.phase == Active {
      CreditArrives(s, g);
      DstRequestSound(Credited(s), g);
    }
  }

  function Credited(s: Slot): Slot
    requires s.fwd != [] && s.fwd[0].StreamCredit?
  {
    var t := s.dst.tx;
    s.(fwd := s.fwd[1..], dst := s.dst.(tx := t.(sendCredit := t.sendCredit + s.fwd[0].amount)))
  }

  lemma CreditArrives(s: Slot, g: Shared)
    requires SlotInv(s) && View(s, g) && s.dst.phase == Active && s.fwd != [] && s.fwd[0].StreamCredit?
    ensures StreamFrame(s.fwd[0])
    ensures SlotInv(Credited(s)) && View(Credited(s), g) && Balanced(s, g, Credited(s), g)
  {
    hide Total, NoneAfter, Sum, StreamFrames;
    Popped(s.fwd);
    FramesPop(s.fwd);
  }

  lemma FromEntrySound(s: Slot, g: Shared, newest: bool, admit: bool)
    requires SlotInv(s) && View(s, g) && s.fwd != []
    requires s.fwd[0].Open? ==> newest
    ensures Sound(s, g, FromEntry(s, g, newest, admit))
  {
    match s.fwd[0]
    case Open => FromEntryOpenSound(s, g, admit);
    case Data(_) => FromEntryDataSound(s, g);
    case StreamCredit(_) => FromEntryCreditSound(s, g);
    case _ => FromEntryEndSound(s, g);
  }

  lemma SendSound(s: Slot, g: Shared, bytes: seq<byte>)
    requires SlotInv(s) && View(s, g) && Enabled(s.dst, Send(bytes))
    ensures Sound(s, g, DstAct(s, g, Send(bytes)))
  {
    hide Total, NoneAfter, Sum, StreamFrames;
    FramesPush(s.bwd, Data(bytes));
    Pushed(s.bwd, Data(bytes));
    FinPush(s.bwd, Data(bytes));
  }

  lemma FinalSound(s: Slot, g: Shared)
    requires SlotInv(s) && View(s, g) && Enabled(s.dst, Final)
    ensures Sound(s, g, DstAct(s, g, Final))
  {
    hide Total, NoneAfter, Sum, StreamFrames;
    FramesPush(s.bwd, Fin);
    Pushed(s.bwd, Fin);
    FinPush(s.bwd, Fin);
  }

  lemma TeardownKeeps(s: Slot, g: Shared)
    requires SlotInv(s) && View(s, g) && Enabled(s.dst, Teardown)
    ensures DstAct(s, g, Teardown).Done? && SlotInv(DstAct(s, g, Teardown).slot)
  {
    hide Total, NoneAfter, Sum, StreamFrames, Consumed;
    FramesPush(s.bwd, Reset);
    Pushed(s.bwd, Reset);
    FinPush(s.bwd, Reset);
    ConsumedMoves(g.(dAvailable := g.dAvailable + s.dleg.granted), s.dst.rx.outstanding, true);
  }

  lemma TeardownBalances(s: Slot, g: Shared)
    requires Enabled(s.dst, Teardown) && DstAct(s, g, Teardown).Done?
    ensures var o := DstAct(s, g, Teardown); Balanced(s, g, o.slot, o.shared)
  {
    hide Total, NoneAfter, Sum, StreamFrames, Consumed;
    Pushed(s.bwd, Reset);
    ConsumedMoves(g.(dAvailable := g.dAvailable + s.dleg.granted), s.dst.rx.outstanding, true);
  }

  /** The stream after a read, before the circuit credit goes back. */
  function AfterRead(s: Slot): Slot
    requires s.dst.rx.delivered ==> s.dst.rx.outstanding > 0
  {
    var (r, back) := ReadNext(s.dst.rx);
    s.(dst := s.dst.(rx := r), bwd := if back == 0 then s.bwd else s.bwd + [StreamCredit(back)])
  }

  lemma ReadFits(r: Receiver)
    requires Window(r)
    ensures r.delivered ==> r.outstanding > 0
    ensures var (d, back) := ReadNext(r);
      && (back > 0 ==> StreamFrame(StreamCredit(back))) && |d.queue| <= d.outstanding <= STREAM_WINDOW
      && d.receiveCredit == r.receiveCredit + back <= STREAM_WINDOW && d.remoteEnded == r.remoteEnded && Window(d)
  {
    ReadKeepsWindow(r);
    hide ReadNext;
  }

  lemma ReadShape(s: Slot)
    requires SlotShape(s) && s.dst.phase == Active && Window(s.dst.rx)
    ensures (s.dst.rx.delivered ==> s.dst.rx.outstanding > 0) && SlotShape(AfterRead(s))
  {
    hide StreamFrames, StreamFrame, ReadNext, Window;
    ReadFits(s.dst.rx);
    var back := ReadNext(s.dst.rx).1;
    if back > 0 {
      FramesPush(s.bwd, StreamCredit(back));
    }
  }

  lemma ReadOther(s: Slot)
    requires ForwardWindow(s) && ReverseWindow(s) && EndsLast(s) && s.dst.phase == Active
    ensures s.dst.rx.delivered ==> s.dst.rx.outstanding > 0
    ensures ForwardWindow(AfterRead(s)) && ReverseWindow(AfterRead(s)) && EndsLast(AfterRead(s))
  {
    hide Total, NoneAfter, ReadNext, Window, StreamFrame;
    ReadFits(s.dst.rx);
    var back := ReadNext(s.dst.rx).1;
    Pushed(s.bwd, StreamCredit(back));
    FinPush(s.bwd, StreamCredit(back));
  }

  lemma ReadKeeps(s: Slot, g: Shared)
    requires SlotInv(s) && View(s, g) && Enabled(s.dst, Read)
    ensures DstAct(s, g, Read).Done? && SlotInv(DstAct(s, g, Read).slot)
  {
    hide SlotShape, ReverseWindow, EndsLast, Total, Sum, Consumed, ReadNext, Window;
    ReadShape(s);
    ReadOther(s);
    hide ForwardWindow;
    ReadFits(s.dst.rx);
    ConsumedMoves(g, 1, false);
  }

  lemma ReadBalances(s: Slot, g: Shared)
    requires SlotInv(s) && Enabled(s.dst, Read) && DstAct(s, g, Read).Done?
    ensures var o := DstAct(s, g, Read); Balanced(s, g, o.slot, o.shared)
  {
    hide Total, NoneAfter, Sum, StreamFrames, Consumed;
    ReadKeepsWindow(s.dst.rx);
    Pushed(s.bwd, StreamCredit(ReadNext(s.dst.rx).1));
    ConsumedMoves(g, 1, false);
  }

  /** Acts that only set a flag. */
  lemma FlagSound(s: Slot, g: Shared, act: Act)
    requires SlotInv(s) && Enabled(s.dst, act) && (act.StartWriting? || act.StopWriting? || act.Fail?)
    ensures Sound(s, g, DstAct(s, g, act))
  {
    hide Total, NoneAfter, Sum, StreamFrames;
  }

  lemma DstActSound(s: Slot, g: Shared, act: Act)
    requires SlotInv(s) && View(s, g)
    ensures Sound(s, g, DstAct(s, g, act))
  {
    hide SlotInv, View, DstRelease, DstRequest, ReadNext, Consumed, Total, Sum;
    if Enabled(s.dst, act) {
      match act
      case Poll => if s.dst.tx.sendCredit == 0 { DstReleaseSound(s, g); } else { DstRequestSound(s, g); }
      case Idle => DstReleaseSound(s, g);
      case Send(bytes) => SendSound(s, g, bytes);
      case Final => FinalSound(s, g);
      case Read => ReadKeeps(s, g); ReadBalances(s, g);
      case Teardown => TeardownKeeps(s, g); TeardownBalances(s, g);
      case _ => FlagSound(s, g, act);
    } else {
      StillSound(s, g);
    }
  }

  lemma StillSound(s: Slot, g: Shared)
    requires SlotInv(s)
    ensures Sound(s, g, Done(s, g, []))
  {
    hide SlotInv;
  }
}
