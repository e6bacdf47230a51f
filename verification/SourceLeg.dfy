/**
 An honest source stream, the two FIFO channels of its physical leg, and the agreement
 it keeps with the entry's record and pool leg.
 */
module SourceLeg {
  import opened Frames
  import opened PoolLeg
  import opened Endpoint
  import opened SharedCircuit

  /** `lostCircuit` and `lostStream` account for grants that reach a stream which is
      already being destroyed and ignores them. */
  datatype Source = Source(
    e: Stream,
    circuitReceive: nat,
    circuitReturn: nat,
    up: seq<Frame>,
    down: seq<Frame>,
    lostCircuit: nat,
    lostStream: nat)

  const NEW_SOURCE := Source(Fresh(Active), CIRCUIT_WINDOW, 0, [], [], 0, 0)

  datatype Reaction = Took(source: Source) | Rejected

  // ---------------------------------------------------------------- the source's code

  /** `_requestCircuit`. */
  function Request(p: Source): Source {
    var t := p.e.tx;
    if p.e.phase != Active || !WantsCircuit(t) then p else
    var amount := CIRCUIT_WINDOW - t.circuitCredit;
    p.(e := p.e.(tx := t.(circuitRequested := amount)), up := p.up + [Demand(amount)])
  }

  /** `_releaseCircuit`: cancel an unmet demand, then give back unspent credit. */
  function Relinquish(p: Source): Source {
    GiveBack(CancelDemand(p))
  }

  function CancelDemand(p: Source): Source {
    var t := p.e.tx;
    if t.circuitRequested == 0 || t.circuitCanceling then p
    else p.(e := p.e.(tx := t.(circuitCanceling := true)), up := p.up + [Demand(0)])
  }

  function GiveBack(p: Source): Source {
    var t := p.e.tx;
    if t.circuitCredit == 0 then p
    else p.(e := p.e.(tx := t.(circuitCredit := 0)), up := p.up + [Release(t.circuitCredit)])
  }

  /** `_returnCircuit` of a stream that owns its leg. */
  function ReturnCircuit(p: Source, amount: nat, flush: bool): Source {
    var pending := p.circuitReturn + amount;
    if pending == 0 || (!flush && pending < CIRCUIT_CREDIT_BATCH) then p.(circuitReturn := pending)
    else p.(circuitReturn := 0, circuitReceive := p.circuitReceive + pending,
            up := p.up + [CircuitCredit(pending)])
  }

  function Grow(p: Source): Reaction {
    if p.circuitReceive > CIRCUIT_WINDOW then Rejected else Took(p)
  }

  /** The source's payload listener, for the oldest frame on the way down. */
  function Hear(p: Source): Reaction
    requires p.down != []
  {
    var q := p.(down := p.down[1..]);
    match p.down[0]
    case CircuitCredit(n) => HearGrant(q, n)
    case Demand(n) => if n != 0 then Rejected else HearAck(q)
    case StreamCredit(n) => HearStreamCredit(q, n)
    case Data(bytes) => HearData(q, bytes)
    case Fin => Took(q.(e := RemoteFin(q.e)))
    case Reset => Took(q.(e := RemoteReset(q.e)))
    case _ => Rejected
  }

  /** `grantCircuit`. */
  function HearGrant(p: Source, n: nat): Reaction {
    var t := p.e.tx;
    if p.e.phase != Active then Took(p.(lostCircuit := p.lostCircuit + n))
    else if n == 0 || n > t.circuitRequested || t.circuitCredit + n > CIRCUIT_WINDOW then Rejected
    else
      var q := p.(e := p.e.(tx := t.(circuitRequested := t.circuitRequested - n,
                                     circuitCredit := t.circuitCredit + n)));
      Took(if t.sendCredit == 0 || t.ended then Relinquish(q) else q)
  }

  /** `cancelCircuit`: the entry has acknowledged the cancelled demand. */
  function HearAck(p: Source): Reaction {
    var t := p.e.tx;
    if p.e.phase != Active then Took(p)
    else if !t.circuitCanceling then Rejected
    else
      var q := p.(e := p.e.(tx := t.(circuitCanceling := false, circuitRequested := 0)));
      Took(if !t.writing || t.sendCredit == 0 || t.ended then Relinquish(q) else Request(q))
  }

  /** `grantStream`. */
  function HearStreamCredit(p: Source, n: nat): Reaction {
    var t := p.e.tx;
    if p.e.phase != Active then Took(p.(lostStream := p.lostStream + n))
    else if n == 0 || t.sendCredit + n > STREAM_WINDOW then Rejected
    else
      var q := p.(e := p.e.(tx := t.(sendCredit := t.sendCredit + n)));
      Took(if t.writing then Request(q) else q)
  }

  /** `receive`. */
  function HearData(p: Source, bytes: seq<byte>): Reaction {
    var e := p.e;
    if p.circuitReceive == 0 then Rejected else
    var q := p.(circuitReceive := p.circuitReceive - 1);
    if e.phase != Active then Grow(ReturnCircuit(q, 1, false))
    else if e.rx.remoteEnded then Grow(ReturnCircuit(q.(e := e.(phase := Destroying)), 1, false))
    else if !CanAccept(e.rx) then Rejected
    else Took(q.(e := e.(rx := Accept(e.rx, bytes))))
  }

  /** What the source application and its timers do. */
  function Perform(p: Source, act: Act): Reaction {
    var e := p.e;
    var t := e.tx;
    if !Enabled(e, act) then Took(p) else
    match act
    case StartWriting => Took(p.(e := e.(tx := t.(writing := true))))
    case StopWriting => Took(p.(e := e.(tx := t.(writing := false))))
    case Poll => Took(if t.sendCredit == 0 then Relinquish(p) else Request(p))
    case Idle => Took(Relinquish(p))
    case Send(bytes) =>
      Took(p.(e := e.(tx := t.(sendCredit := t.sendCredit - 1, circuitCredit := t.circuitCredit - 1,
                               written := t.written + bytes)),
              up := p.up + [Data(bytes)]))
    case Final =>
      var q := Relinquish(p.(e := e.(tx := t.(ended := true))));
      Took(q.(up := q.up + [Fin]))
    case Read =>
      if e.rx.delivered && e.rx.outstanding == 0 then Rejected else
      var (r, back) := ReadNext(e.rx);
      var q := p.(e := e.(rx := r), up := if back == 0 then p.up else p.up + [StreamCredit(back)]);
      if e.rx.delivered then Grow(ReturnCircuit(q, 1, false)) else Took(q)
    case Fail => Took(p.(e := e.(phase := Destroying)))
    case Teardown =>
      var q := p.(e := e.(phase := Closed, rx := e.rx.(queue := [], outstanding := 0)),
                  up := if SendsReset(e) then p.up + [Reset] else p.up);
      Grow(ReturnCircuit(q, e.rx.outstanding, true))
  }

  /** The delayed return that `scheduleCreditReturn` arms. */
  function Flush(p: Source): Reaction {
    Grow(ReturnCircuit(p, 0, true))
  }

  // ---------------------------------------------------- agreement with the entry

  predicate LegInv(rec: Record, leg: Leg, p: Source) {
    && Clean(p)
    && Credits(rec, leg, p)
    && Windows(rec, p)
    && Ends(rec, p)
    && Dialogue(leg, p)
  }

  predicate AllWellFormed(ch: seq<Frame>) {
    forall i :: 0 <= i < |ch| ==> WellFormed(ch[i])
  }

  /** Only frames the entry forwards or answers with travel down; OPEN never travels up. */
  predicate Clean(p: Source) {
    && AllWellFormed(p.up) && AllWellFormed(p.down)
    && (forall i :: 0 <= i < |p.up| ==> !p.up[i].Open?)
    && (forall i :: 0 <= i < |p.down| ==>
          !p.down[i].Open? && !p.down[i].Release? && (p.down[i].Demand? ==> p.down[i].amount == 0))
    && (p.e.phase != Unopened)
  }

  /** Each leg's grant at the entry is held by the source, on its way down, or being spent
      or given back on its way up; likewise for stream credit. */
  predicate Credits(rec: Record, leg: Leg, p: Source) {
    && leg.granted == p.e.tx.circuitCredit + p.lostCircuit + Total(CircuitGrant, p.down)
                      + Total(Cell, p.up) + Total(Released, p.up)
    && rec.sendCredit == p.e.tx.sendCredit + p.lostStream + Total(StreamGrant, p.down) + Total(Cell, p.up)
    && (p.e.phase == Active ==> p.lostCircuit == 0 && p.lostStream == 0)
  }

  /** The windows of DATA coming down the leg. */
  predicate Windows(rec: Record, p: Source) {
    && rec.reverseInFlight == Total(Cell, p.down) + p.e.rx.outstanding + p.circuitReturn + Total(CircuitGrant, p.up)
    && p.circuitReceive + p.e.rx.outstanding + p.circuitReturn == CIRCUIT_WINDOW
    && rec.receiveCredit + Total(StreamGrant, p.up) <= STREAM_WINDOW
    && (p.e.phase == Active ==>
          && Window(p.e.rx)
          && rec.receiveCredit + Total(Cell, p.down) + Total(StreamGrant, p.up) == p.e.rx.receiveCredit)
  }

  predicate Ends(rec: Record, p: Source) {
    && NoneAfter(Fins, Cell, p.up) && NoneAfter(Fins, Wanted, p.up) && NoneAfter(Fins, Cell, p.down)
    && (!p.e.tx.ended ==> Total(Fins, p.up) == 0 && !rec.sourceEnded)
    && (p.e.tx.ended ==> !p.e.tx.writing)
    && (rec.sourceEnded ==> Total(Cell, p.up) == 0 && Total(Wanted, p.up) == 0)
    && (!rec.destinationEnded ==> Total(Fins, p.down) == 0 && !p.e.rx.remoteEnded)
    && (p.e.rx.remoteEnded ==> Total(Cell, p.down) == 0)
  }

  /** The demand dialogue.  At most one demand and one cancellation are ever under way; a
      demand under way finds the pool leg idle and fits its window on arrival; otherwise
      the source waits for exactly what the entry still owes or has sent; the
      acknowledgement of a cancellation is the last circuit-level frame on its way down. */
  predicate Dialogue(leg: Leg, p: Source) {
    var t := p.e.tx;
    var asked := Total(Wanted, p.up);
    var cancels := Total(Cancels, p.up);
    var acks := Total(Cancels, p.down);
    var coming := Total(CircuitGrant, p.down);
    && NoneAfter(Wanted, Wanted, p.up) && NoneAfter(Cancels, Wanted, p.up)
    && NoneAfter(Cancels, CircuitGrant, p.down)
    && cancels + acks <= 1
    && (cancels + acks == 1 ==> t.circuitCanceling)
    && (p.e.phase == Active && t.circuitCanceling ==> cancels + acks == 1)
    && (asked > 0 ==>
          && leg.wanted == 0 && coming == 0 && acks == 0
          && asked + t.circuitCredit + p.lostCircuit + SpentAfterDemand(p.up) <= CIRCUIT_WINDOW
          && (p.e.phase == Active ==> asked == t.circuitRequested))
    && (acks == 1 ==> leg.wanted == 0 && (p.e.phase == Active ==> coming <= t.circuitRequested))
    && (asked == 0 && cancels == 1 ==> leg.demandOpen)
    && (p.e.phase == Active && asked == 0 && acks == 0 ==>
          && t.circuitRequested == leg.wanted + coming
          && (t.circuitRequested > 0 ==> leg.demandOpen))
  }

  // --------------------------------------------- the source keeps the agreement

  /** A leg on which nothing has happened yet. */
  predicate Untouched(rec: Record, leg: Leg, p: Source) {
    && rec.sendCredit == STREAM_WINDOW && rec.receiveCredit == STREAM_WINDOW && rec.reverseInFlight == 0
    && !rec.sourceEnded && !rec.destinationEnded && leg.granted == 0 && leg.wanted == 0
    && |p.up| == 0 && |p.down| == 0 && p.lostCircuit == 0 && p.lostStream == 0
    && p.e == Fresh(Active) && p.circuitReceive == CIRCUIT_WINDOW && p.circuitReturn == 0
  }

  lemma NewWindowsAgree(rec: Record, leg: Leg, p: Source)
    requires Untouched(rec, leg, p)
    ensures Windows(rec, p)
  {
    hide Total;
    Empty(p.up);
    Empty(p.down);
  }

  lemma NewDialogueAgrees(rec: Record, leg: Leg, p: Source)
    requires Untouched(rec, leg, p)
    ensures Ends(rec, p) && Dialogue(leg, p)
  {
    hide Total, NoneAfter, SpentAfterDemand;
    Empty(p.up);
    Empty(p.down);
  }

  lemma NewLegAgrees(rec: Record, leg: Leg, p: Source)
    requires Untouched(rec, leg, p)
    ensures LegInv(rec, leg, p)
  {
    hide Total, NoneAfter, Windows, Ends, Dialogue;
    NewWindowsAgree(rec, leg, p);
    NewDialogueAgrees(rec, leg, p);
    Empty(p.up);
    Empty(p.down);
  }

  /** Everything a push onto the way up does to the sums and orders of that channel. */
  lemma PushedUp(up: seq<Frame>, f: Frame)
    ensures forall k :: Total(k, up + [f]) == Total(k, up) + Weight(k, f)
    ensures forall mark, k :: NoneAfter(mark, k, up) && (Weight(k, f) == 0 || Total(mark, up) == 0) ==>
      NoneAfter(mark, k, up + [f])
    ensures Total(Wanted, up) > 0 ==>
      SpentAfterDemand(up + [f]) == SpentAfterDemand(up) + Weight(Cell, f) + Weight(Released, f)
    ensures Total(Wanted, up) == 0 ==> SpentAfterDemand(up + [f]) == 0
  {
    Pushed(up, f);
    SpentAfterPush(up, f);
    forall mark, k | NoneAfter(mark, k, up) && (Weight(k, f) == 0 || Total(mark, up) == 0)
      ensures NoneAfter(mark, k, up + [f])
    {
      NoneAfterPush(mark, k, up, f);
    }
  }

  /** The bounds that the circuit's conservation laws put on one leg. */
  predicate Bounded(rec: Record, leg: Leg) {
    leg.granted <= CIRCUIT_WINDOW && rec.reverseInFlight <= CIRCUIT_WINDOW && rec.sendCredit <= STREAM_WINDOW
  }

  lemma RequestOpensDialogue(leg: Leg, p: Source)
    requires Dialogue(leg, p) && p.e.phase == Active && WantsCircuit(p.e.tx) && p.lostCircuit == 0
    ensures Dialogue(leg, Request(p))
  {
    hide Total, NoneAfter, SpentAfterDemand;
    PushedUp(p.up, Demand(CIRCUIT_WINDOW - p.e.tx.circuitCredit));
  }

  lemma RequestKeepsRest(rec: Record, leg: Leg, p: Source)
    requires Clean(p) && Credits(rec, leg, p) && Windows(rec, p) && Ends(rec, p)
    requires p.e.phase == Active && WantsCircuit(p.e.tx)
    ensures var q := Request(p); Clean(q) && Credits(rec, leg, q) && Windows(rec, q) && Ends(rec, q)
  {
    hide Total, NoneAfter;
    PushedUp(p.up, Demand(CIRCUIT_WINDOW - p.e.tx.circuitCredit));
  }

  lemma RequestAgrees(rec: Record, leg: Leg, p: Source)
    requires LegInv(rec, leg, p)
    ensures LegInv(rec, leg, Request(p))
  {
    if p.e.phase == Active && WantsCircuit(p.e.tx) {
      assert p.lostCircuit == 0 by { hide Clean, Windows, Ends, Dialogue; }
      hide Clean, Credits, Windows, Ends, Dialogue, Request;
      RequestOpensDialogue(leg, p);
      RequestKeepsRest(rec, leg, p);
    }
  }

  lemma CancelAgrees(rec: Record, leg: Leg, p: Source)
    requires LegInv(rec, leg, p) && p.e.phase == Active
    ensures LegInv(rec, leg, CancelDemand(p))
  {
    hide Total, NoneAfter, SpentAfterDemand;
    PushedUp(p.up, Demand(0));
  }

  lemma GiveBackAgrees(rec: Record, leg: Leg, p: Source)
    requires LegInv(rec, leg, p) && Bounded(rec, leg)
    ensures LegInv(rec, leg, GiveBack(p))
  {
    hide Total, NoneAfter, SpentAfterDemand;
    PushedUp(p.up, Release(p.e.tx.circuitCredit));
  }

  lemma RelinquishAgrees(rec: Record, leg: Leg, p: Source)
    requires LegInv(rec, leg, p) && Bounded(rec, leg) && p.e.phase == Active
    ensures LegInv(rec, leg, Relinquish(p)) && Relinquish(p).e.tx.ended == p.e.tx.ended
  {
    hide LegInv, Bounded;
    CancelAgrees(rec, leg, p);
    GiveBackAgrees(rec, leg, CancelDemand(p));
  }

  // ------------------------------------------------ frames on the way down are taken

  function Enriched(p: Source): Source
    requires p.down != [] && p.down[0].CircuitCredit? && p.down[0].amount <= p.e.tx.circuitRequested
  {
    var t := p.e.tx;
    var n := p.down[0].amount;
    p.(down := p.down[1..],
       e := p.e.(tx := t.(circuitRequested := t.circuitRequested - n, circuitCredit := t.circuitCredit + n)))
  }

  lemma GrantFits(rec: Record, leg: Leg, p: Source)
    requires LegInv(rec, leg, p) && Bounded(rec, leg) && p.e.phase == Active
    requires p.down != [] && p.down[0].CircuitCredit?
    ensures 1 <= p.down[0].amount <= p.e.tx.circuitRequested
    ensures p.e.tx.circuitCredit + p.down[0].amount <= CIRCUIT_WINDOW
    ensures LegInv(rec, leg, Enriched(p))
  {
    hide Total, NoneAfter, SpentAfterDemand;
    Popped(p.down);
    assert WellFormed(p.down[0]);
  }

  lemma GrantHeard(rec: Record, leg: Leg, p: Source)
    requires LegInv(rec, leg, p) && Bounded(rec, leg) && p.e.phase == Active
    requires p.down != [] && p.down[0].CircuitCredit?
    ensures Hear(p).Took? && LegInv(rec, leg, Hear(p).source)
  {
    hide LegInv, Bounded, Relinquish;
    GrantFits(rec, leg, p);
    var q := Enriched(p);
    assert Hear(p) == Took(if q.e.tx.sendCredit == 0 || q.e.tx.ended then Relinquish(q) else q);
    RelinquishAgrees(rec, leg, q);
  }

  /** A stream being destroyed lets grants and acknowledgements pass. */
  lemma GrantIgnored(rec: Record, leg: Leg, p: Source)
    requires LegInv(rec, leg, p) && p.e.phase != Active
    requires p.down != [] && (p.down[0].CircuitCredit? || p.down[0].StreamCredit? || p.down[0].Demand?)
    ensures Hear(p).Took? && LegInv(rec, leg, Hear(p).source)
  {
    hide Total, NoneAfter, SpentAfterDemand;
    Popped(p.down);
  }

  function Acknowledged(p: Source): Source
    requires p.down != []
  {
    p.(down := p.down[1..], e := p.e.(tx := p.e.tx.(circuitCanceling := false, circuitRequested := 0)))
  }

  lemma AckFits(rec: Record, leg: Leg, p: Source)
    requires LegInv(rec, leg, p) && p.e.phase == Active && p.down != [] && p.down[0].Demand?
    ensures p.down[0].amount == 0 && p.e.tx.circuitCanceling && LegInv(rec, leg, Acknowledged(p))
  {
    hide Total, NoneAfter, SpentAfterDemand;
    Popped(p.down);
  }

  lemma AckHeard(rec: Record, leg: Leg, p: Source)
    requires LegInv(rec, leg, p) && Bounded(rec, leg) && p.e.phase == Active
    requires p.down != [] && p.down[0].Demand?
    ensures Hear(p).Took? && LegInv(rec, leg, Hear(p).source)
  {
    hide LegInv, Bounded, Relinquish, Request;
    AckFits(rec, leg, p);
    RelinquishAgrees(rec, leg, Acknowledged(p));
    RequestAgrees(rec, leg, Acknowledged(p));
  }

  function Refilled(p: Source): Source
    requires p.down != [] && p.down[0].StreamCredit?
  {
    p.(down := p.down[1..], e := p.e.(tx := p.e.tx.(sendCredit := p.e.tx.sendCredit + p.down[0].amount)))
  }

  lemma StreamCreditFits(rec: Record, leg: Leg, p: Source)
    requires LegInv(rec, leg, p) && Bounded(rec, leg) && p.e.phase == Active
    requires p.down != [] && p.down[0].StreamCredit?
    ensures p.down[0].amount > 0 && p.e.tx.sendCredit + p.down[0].amount <= STREAM_WINDOW
    ensures LegInv(rec, leg, Refilled(p))
  {
    hide Total, NoneAfter, SpentAfterDemand;
    Popped(p.down);
    assert WellFormed(p.down[0]);
  }

  lemma StreamCreditHeard(rec: Record, leg: Leg, p: Source)
    requires LegInv(rec, leg, p) && Bounded(rec, leg) && p.e.phase == Active
    requires p.down != [] && p.down[0].StreamCredit?
    ensures Hear(p).Took? && LegInv(rec, leg, Hear(p).source)
  {
    hide LegInv, Bounded, Request;
    StreamCreditFits(rec, leg, p);
    var q := Refilled(p);
    assert Hear(p) == Took(if q.e.tx.writing then Request(q) else q);
    RequestAgrees(rec, leg, q);
  }

  /** FIN and RESET concern the reading half and the phase only. */
  lemma EndHeardWindows(rec: Record, p: Source)
    requires Windows(rec, p) && p.down != [] && (p.down[0].Fin? || p.down[0].Reset?)
    ensures Windows(rec, Hear(p).source)
  {
    hide Total, Drain;
    Popped(p.down);
    if p.e.phase == Active && !p.e.rx.remoteEnded {
      DrainMovesOneCell(p.e.rx.(remoteEnded := true));
    }
  }

  lemma EndHeard(rec: Record, leg: Leg, p: Source)
    requires LegInv(rec, leg, p) && p.down != [] && (p.down[0].Fin? || p.down[0].Reset?)
    ensures Hear(p).Took? && LegInv(rec, leg, Hear(p).source)
  {
    hide Total, NoneAfter, SpentAfterDemand, Drain, Windows, Window, Tidy;
    EndHeardWindows(rec, p);
    Popped(p.down);
    if p.e.phase == Active && !p.e.rx.remoteEnded {
      DrainKeepsEnd(p.e.rx.(remoteEnded := true));
    }
  }

  lemma DrainKeepsEnd(r: Receiver)
    ensures Drain(r).remoteEnded == r.remoteEnded
  {
  }

  /** Everything but the receive windows: what an act of the reading half leaves alone. */
  predicate WritingHalf(rec: Record, leg: Leg, p: Source) {
    Clean(p) && Credits(rec, leg, p) && Ends(rec, p) && Dialogue(leg, p)
  }

  /** `q` is `p` after an act of the reading half that sends at most the frame `f`. */
  predicate ReadingAct(p: Source, q: Source, f: Frame) {
    && (f.CircuitCredit? || f.StreamCredit? || f.Reset?)
    && (q.up == p.up || (q.up == p.up + [f] && WellFormed(f)))
    && q.down == p.down && q.e.tx == p.e.tx && q.e.rx.remoteEnded == p.e.rx.remoteEnded
    && q.lostCircuit == p.lostCircuit && q.lostStream == p.lostStream
    && (q.e.phase == p.e.phase || q.e.phase == Destroying || q.e.phase == Closed)
  }

  lemma ReadingApart(rec: Record, leg: Leg, p: Source, q: Source, f: Frame)
    requires WritingHalf(rec, leg, p) && ReadingAct(p, q, f)
    ensures WritingHalf(rec, leg, q)
  {
    hide Total, NoneAfter, SpentAfterDemand;
    PushedUp(p.up, f);
  }

  lemma ReturnWindows(rec: Record, leg: Leg, p: Source, amount: nat, flush: bool)
    requires Windows(rec, p.(circuitReturn := p.circuitReturn + amount)) && Bounded(rec, leg)
    ensures Windows(rec, ReturnCircuit(p, amount, flush))
    ensures p.circuitReturn + amount <= CIRCUIT_WINDOW
  {
    hide Total, NoneAfter, SpentAfterDemand;
    Pushed(p.up, CircuitCredit(p.circuitReturn + amount));
  }

  /** Returning credit turns cells consumed but unreported into CREDIT on the way up. */
  lemma ReturnAgrees(rec: Record, leg: Leg, p: Source, amount: nat, flush: bool)
    requires LegInv(rec, leg, p.(circuitReturn := p.circuitReturn + amount)) && Bounded(rec, leg)
    ensures Grow(ReturnCircuit(p, amount, flush)) == Took(ReturnCircuit(p, amount, flush))
    ensures LegInv(rec, leg, ReturnCircuit(p, amount, flush))
  {
    hide Total, NoneAfter, SpentAfterDemand;
    ReturnWindows(rec, leg, p, amount, flush);
    ReadingApart(rec, leg, p.(circuitReturn := p.circuitReturn + amount), ReturnCircuit(p, amount, flush),
                 CircuitCredit(p.circuitReturn + amount));
  }

  lemma DataFits(rec: Record, leg: Leg, p: Source)
    requires LegInv(rec, leg, p) && Bounded(rec, leg) && p.e.phase == Active && p.down != [] && p.down[0].Data?
    ensures !p.e.rx.remoteEnded && p.circuitReceive > 0 && p.e.rx.receiveCredit > 0 && CanAccept(p.e.rx)
  {
    hide Total, NoneAfter, SpentAfterDemand, Clean, Credits, Dialogue, Accept;
    Popped(p.down);
    AcceptKeepsWindow(p.e.rx, p.down[0].bytes);
  }

  lemma DataKeptWindows(rec: Record, p: Source)
    requires Windows(rec, p) && p.e.phase == Active && p.down != [] && p.down[0].Data?
    requires !p.e.rx.remoteEnded && p.circuitReceive > 0 && p.e.rx.receiveCredit > 0 && CanAccept(p.e.rx)
    ensures Windows(rec, Hear(p).source) && Hear(p).source.e.rx.remoteEnded == p.e.rx.remoteEnded
  {
    hide Total, Accept, Received;
    Popped(p.down);
    AcceptKeepsWindow(p.e.rx, p.down[0].bytes);
  }

  lemma DataKept(rec: Record, leg: Leg, p: Source)
    requires LegInv(rec, leg, p) && Bounded(rec, leg) && p.e.phase == Active && p.down != [] && p.down[0].Data?
    ensures Hear(p).Took? && LegInv(rec, leg, Hear(p).source)
  {
    hide Total, NoneAfter, SpentAfterDemand, Accept, Windows, CanAccept;
    DataFits(rec, leg, p);
    DataKeptWindows(rec, p);
    Popped(p.down);
  }

  function Dropped(p: Source): Source
    requires p.down != [] && p.circuitReceive > 0
  {
    p.(down := p.down[1..], circuitReceive := p.circuitReceive - 1, circuitReturn := p.circuitReturn + 1)
  }

  lemma DroppedAgrees(rec: Record, leg: Leg, p: Source)
    requires LegInv(rec, leg, p) && Bounded(rec, leg) && p.e.phase != Active && p.down != [] && p.down[0].Data?
    ensures p.circuitReceive > 0 && LegInv(rec, leg, Dropped(p))
  {
    hide Total, NoneAfter, SpentAfterDemand;
    Popped(p.down);
  }

  lemma DataDropped(rec: Record, leg: Leg, p: Source)
    requires LegInv(rec, leg, p) && Bounded(rec, leg) && p.e.phase != Active && p.down != [] && p.down[0].Data?
    ensures Hear(p).Took? && LegInv(rec, leg, Hear(p).source)
  {
    hide LegInv, Bounded, ReturnCircuit;
    DroppedAgrees(rec, leg, p);
    var q := Dropped(p).(circuitReturn := p.circuitReturn);
    assert Hear(p) == Grow(ReturnCircuit(q, 1, false));
    ReturnAgrees(rec, leg, q, 1, false);
  }

  /** No frame that an honest entry sends down the leg is rejected by the source. */
  lemma HearAgrees(rec: Record, leg: Leg, p: Source)
    requires LegInv(rec, leg, p) && Bounded(rec, leg) && p.down != []
    ensures Hear(p).Took? && LegInv(rec, leg, Hear(p).source)
  {
    hide Credits, Windows, Ends, Dialogue, Bounded, Hear;
    assert WellFormed(p.down[0]) && !p.down[0].Open? && !p.down[0].Release?;
    match p.down[0]
    case Data(_) => if p.e.phase == Active { DataKept(rec, leg, p); } else { DataDropped(rec, leg, p); }
    case Fin => EndHeard(rec, leg, p);
    case Reset => EndHeard(rec, leg, p);
    case CircuitCredit(_) => if p.e.phase == Active { GrantHeard(rec, leg, p); } else { GrantIgnored(rec, leg, p); }
    case Demand(_) => if p.e.phase == Active { AckHeard(rec, leg, p); } else { GrantIgnored(rec, leg, p); }
    case StreamCredit(_) => if p.e.phase == Active { StreamCreditHeard(rec, leg, p); } else { GrantIgnored(rec, leg, p); }
  }

  // --------------------------------------------------- the application acts

  lemma SendAgrees(rec: Record, leg: Leg, p: Source, bytes: seq<byte>)
    requires LegInv(rec, leg, p) && Enabled(p.e, Send(bytes))
    ensures LegInv(rec, leg, Perform(p, Send(bytes)).source)
  {
    hide Total, NoneAfter, SpentAfterDemand;
    PushedUp(p.up, Data(bytes));
  }

  lemma FinalAgrees(rec: Record, leg: Leg, p: Source)
    requires LegInv(rec, leg, p) && Bounded(rec, leg) && Enabled(p.e, Final)
    ensures LegInv(rec, leg, Perform(p, Final).source)
  {
    hide LegInv, Bounded, Relinquish;
    var p1 := p.(e := p.e.(tx := p.e.tx.(ended := true)));
    EndedAgrees(rec, leg, p);
    RelinquishAgrees(rec, leg, p1);
    FinAgrees(rec, leg, Relinquish(p1));
  }

  lemma EndedAgrees(rec: Record, leg: Leg, p: Source)
    requires LegInv(rec, leg, p) && !p.e.tx.writing
    ensures LegInv(rec, leg, p.(e := p.e.(tx := p.e.tx.(ended := true))))
  {
    hide Total, NoneAfter, SpentAfterDemand;
  }

  lemma FinAgrees(rec: Record, leg: Leg, p: Source)
    requires LegInv(rec, leg, p) && p.e.tx.ended
    ensures LegInv(rec, leg, p.(up := p.up + [Fin]))
  {
    hide Total, NoneAfter, SpentAfterDemand;
    PushedUp(p.up, Fin);
  }

  /** `_read` up to the circuit return, with the consumed cell counted as pending. */
  function Consumed1(p: Source): Source
    requires p.e.rx.delivered ==> p.e.rx.outstanding > 0
  {
    var (r, back) := ReadNext(p.e.rx);
    p.(e := p.e.(rx := r), up := if back == 0 then p.up else p.up + [StreamCredit(back)],
       circuitReturn := p.circuitReturn + if p.e.rx.delivered then 1 else 0)
  }

  lemma ReadWindows(rec: Record, p: Source)
    requires Windows(rec, p) && p.e.phase == Active
    ensures Windows(rec, Consumed1(p)) && Consumed1(p).e.rx.remoteEnded == p.e.rx.remoteEnded
    ensures ReadNext(p.e.rx).1 <= STREAM_WINDOW
  {
    hide Total, NoneAfter, SpentAfterDemand;
    ReadKeepsWindow(p.e.rx);
    Pushed(p.up, StreamCredit(ReadNext(p.e.rx).1));
  }

  /** The agreement is the writing half and the receive windows. */
  lemma Halves(rec: Record, leg: Leg, p: Source)
    ensures LegInv(rec, leg, p) <==> WritingHalf(rec, leg, p) && Windows(rec, p)
  {
    hide Clean, Credits, Windows, Ends, Dialogue;
  }

  lemma ReadFits(rec: Record, leg: Leg, p: Source)
    requires LegInv(rec, leg, p) && p.e.phase == Active
    ensures Windows(rec, p) && (p.e.rx.delivered ==> p.e.rx.outstanding > 0)
    ensures ReadNext(p.e.rx).1 > 0 ==> WellFormed(StreamCredit(ReadNext(p.e.rx).1))
  {
    hide Total, Clean, Credits, Ends, Dialogue, Drain;
  }

  lemma ReadAgrees(rec: Record, leg: Leg, p: Source)
    requires LegInv(rec, leg, p) && Bounded(rec, leg) && Enabled(p.e, Read)
    ensures Perform(p, Read).Took? && LegInv(rec, leg, Perform(p, Read).source)
  {
    hide Total, NoneAfter, SpentAfterDemand, Windows, WritingHalf, Bounded, ReadNext, ReturnCircuit, LegInv;
    ReadFits(rec, leg, p);
    Halves(rec, leg, p);
    ReadWindows(rec, p);
    var q := Consumed1(p);
    ReadingApart(rec, leg, p, q, StreamCredit(ReadNext(p.e.rx).1));
    Halves(rec, leg, q);
    if p.e.rx.delivered {
      assert Perform(p, Read) == Grow(ReturnCircuit(q.(circuitReturn := p.circuitReturn), 1, false));
      ReturnAgrees(rec, leg, q.(circuitReturn := p.circuitReturn), 1, false);
    } else {
      assert Perform(p, Read) == Took(q);
    }
  }

  /** A destroyed stream before its discarded cells are returned... */
  function Emptied(p: Source): Source {
    p.(e := p.e.(phase := Closed, rx := p.e.rx.(queue := [], outstanding := 0)),
       up := if SendsReset(p.e) then p.up + [Reset] else p.up)
  }

  /** ... and with them counted as pending. */
  lemma EmptiedWindows(rec: Record, p: Source)
    requires Windows(rec, p) && p.e.phase == Destroying
    ensures Windows(rec, Emptied(p).(circuitReturn := p.circuitReturn + p.e.rx.outstanding))
  {
    hide Total;
    Pushed(p.up, Reset);
  }

  lemma TeardownAgrees(rec: Record, leg: Leg, p: Source)
    requires LegInv(rec, leg, p) && Bounded(rec, leg) && Enabled(p.e, Teardown)
    ensures Perform(p, Teardown).Took? && LegInv(rec, leg, Perform(p, Teardown).source)
  {
    hide LegInv, WritingHalf, Windows, Bounded, ReturnCircuit, SendsReset;
    var q := Emptied(p);
    var q1 := q.(circuitReturn := q.circuitReturn + p.e.rx.outstanding);
    Halves(rec, leg, p);
    EmptiedWindows(rec, p);
    ReadingApart(rec, leg, p, q1, Reset);
    Halves(rec, leg, q1);
    assert Perform(p, Teardown) == Grow(ReturnCircuit(q, p.e.rx.outstanding, true));
    ReturnAgrees(rec, leg, q, p.e.rx.outstanding, true);
  }

  /** Acts that only set a flag. */
  lemma FlagAgrees(rec: Record, leg: Leg, p: Source, act: Act)
    requires LegInv(rec, leg, p) && Enabled(p.e, act) && (act.StartWriting? || act.StopWriting? || act.Fail?)
    ensures Perform(p, act).Took? && LegInv(rec, leg, Perform(p, act).source)
  {
    hide Total, NoneAfter, SpentAfterDemand;
  }

  lemma ActAgrees(rec: Record, leg: Leg, p: Source, act: Act)
    requires LegInv(rec, leg, p) && Bounded(rec, leg)
    ensures Perform(p, act).Took? && LegInv(rec, leg, Perform(p, act).source)
  {
    hide LegInv, Bounded, Relinquish, Request, ReadNext, ReturnCircuit, SendsReset;
    if Enabled(p.e, act) {
      match act
      case Poll => if p.e.tx.sendCredit == 0 { RelinquishAgrees(rec, leg, p); } else { RequestAgrees(rec, leg, p); }
      case Idle => RelinquishAgrees(rec, leg, p);
      case Send(bytes) => SendAgrees(rec, leg, p, bytes);
      case Final => FinalAgrees(rec, leg, p);
      case Read => ReadAgrees(rec, leg, p);
      case Teardown => TeardownAgrees(rec, leg, p);
      case _ => FlagAgrees(rec, leg, p, act);
    }
  }

  lemma FlushAgrees(rec: Record, leg: Leg, p: Source)
    requires LegInv(rec, leg, p) && Bounded(rec, leg)
    ensures Flush(p).Took? && LegInv(rec, leg, Flush(p).source)
  {
    hide LegInv, Bounded, ReturnCircuit;
    ReturnAgrees(rec, leg, p, 0, true);
  }

  // ------------------------------------------------ frames on the way up are taken

  /** The leg after the entry has taken the oldest frame on the way up. */
  function TakenUp(p: Source, out: seq<Frame>): Source
    requires p.up != []
  {
    p.(up := p.up[1..], down := p.down + out)
  }

  /** No frame an honest source sends is refused by the entry; the rate limit on demands is
      the one refusal that depends on the clock. */
  predicate Accepts(s: Slot, g: Shared, p: Source)
    requires p.up != []
  {
    var o := FromSource(s, g, p.up[0], false);
    o.Done? && LegInv(o.slot.rec, o.slot.leg, TakenUp(p, o.out))
  }

  lemma DataAccepted(s: Slot, g: Shared, p: Source)
    requires LegInv(s.rec, s.leg, p) && p.up != [] && p.up[0].Data?
    ensures Accepts(s, g, p)
  {
    hide Total, NoneAfter, SpentAfterDemand;
    Popped(p.up);
    assert p.down + [] == p.down;
  }

  lemma DemandAccepted(s: Slot, g: Shared, p: Source)
    requires LegInv(s.rec, s.leg, p) && p.up != [] && p.up[0].Demand? && p.up[0].amount > 0
    ensures Accepts(s, g, p)
  {
    hide Total, NoneAfter, SpentAfterDemand;
    Popped(p.up);
    assert p.down + [] == p.down;
  }

  lemma CancelAccepted(s: Slot, g: Shared, p: Source)
    requires LegInv(s.rec, s.leg, p) && p.up != [] && p.up[0] == Demand(0)
    ensures Accepts(s, g, p)
  {
    hide Total, NoneAfter, SpentAfterDemand;
    Popped(p.up);
    PushedUp(p.down, Demand(0));
  }

  lemma ReleaseAccepted(s: Slot, g: Shared, p: Source)
    requires LegInv(s.rec, s.leg, p) && p.up != [] && p.up[0].Release?
    ensures Accepts(s, g, p)
  {
    hide Total, NoneAfter, SpentAfterDemand;
    Popped(p.up);
    assert p.down + [] == p.down;
  }

  lemma ReturnAccepted(s: Slot, g: Shared, p: Source)
    requires LegInv(s.rec, s.leg, p) && View(s, g) && p.up != [] && p.up[0].CircuitCredit?
    ensures Accepts(s, g, p)
  {
    hide Total, NoneAfter, SpentAfterDemand, Sum, ReturnReverse, Window;
    Popped(p.up);
    assert p.down + [] == p.down;
    ReturnReverseMoves(g, p.up[0].amount, false);
  }

  lemma OtherAccepted(s: Slot, g: Shared, p: Source)
    requires LegInv(s.rec, s.leg, p) && p.up != [] && (p.up[0].Fin? || p.up[0].Reset? || p.up[0].StreamCredit?)
    ensures Accepts(s, g, p)
  {
    hide Total, NoneAfter, SpentAfterDemand;
    Popped(p.up);
    assert p.down + [] == p.down;
  }

  lemma HonestAccepted(s: Slot, g: Shared, p: Source)
    requires LegInv(s.rec, s.leg, p) && View(s, g) && p.up != []
    ensures Accepts(s, g, p)
  {
    hide Credits, Windows, Ends, Dialogue, Accepts, View;
    assert WellFormed(p.up[0]) && !p.up[0].Open?;
    match p.up[0]
    case Data(_) => DataAccepted(s, g, p);
    case Demand(n) => if n == 0 { CancelAccepted(s, g, p); } else { DemandAccepted(s, g, p); }
    case Release(_) => ReleaseAccepted(s, g, p);
    case CircuitCredit(_) => ReturnAccepted(s, g, p);
    case _ => OtherAccepted(s, g, p);
  }

  // ------------------------------------------------ frames the entry sends down

  lemma GrantAgrees(s: Slot, g: Shared, p: Source, amount: nat)
    requires LegInv(s.rec, s.leg, p) && g.available <= CIRCUIT_WINDOW
    ensures var o := Grant(s, g, amount);
      LegInv(o.slot.rec, o.slot.leg, p.(down := p.down + o.out))
  {
    hide Total, NoneAfter, SpentAfterDemand;
    assert p.down + [] == p.down;
    PushedUp(p.down, CircuitCredit(amount));
  }

  /** A frame of the destination that the entry passes on leaves the dialogue alone. */
  lemma PassedDown(rec: Record, leg: Leg, p: Source, f: Frame)
    requires Dialogue(leg, p) && Clean(p) && StreamFrame(f)
    ensures Dialogue(leg, p.(down := p.down + [f])) && Clean(p.(down := p.down + [f]))
  {
    hide Total, NoneAfter, SpentAfterDemand;
    PushedUp(p.down, f);
  }

  lemma ForwardAgrees(s: Slot, g: Shared, p: Source)
    requires LegInv(s.rec, s.leg, p) && s.rec.live && s.bwd != [] && FromDestination(s, g).Done?
    requires StreamFrame(s.bwd[0])
    ensures var o := FromDestination(s, g);
      LegInv(o.slot.rec, o.slot.leg, p.(down := p.down + o.out))
  {
    hide Total, NoneAfter, SpentAfterDemand;
    PassedDown(s.rec, s.leg, p, s.bwd[0]);
    PushedUp(p.down, s.bwd[0]);
  }
}
