/**
 Whole runs of honest sources beside dishonest ones.  The leg of an honest source carries
 a source stream over two FIFO channels; a dishonest one sends any frame at any time.
 All are attached to the shared circuit of `CircuitRuns`.
 */
module HonestRuns {
  import opened Frames
  import opened PoolLeg
  import opened Endpoint
  import opened SharedCircuit
  import opened SourceLeg
  import opened CircuitRuns

  /** A source and, once the entry has closed its leg, what the entry last knew of it.  Of
      a dishonest source nothing else is kept. */
  datatype Seat = Seat(honest: bool, source: Source, rec: Record, leg: Leg)

  /** `rejected` records that some frame on an honest leg, in either direction, was found
      invalid by its receiver. */
  datatype Route = Route(circuit: Circuit, seats: seq<Seat>, rejected: bool)

  const START := Route(INITIAL, [], false)

  function NewSeat(honest: bool): Seat {
    Seat(honest, NEW_SOURCE, ACTIVATED.rec, ACTIVATED.leg)
  }

  /** A step of the entry, the destination or the shared link, where `Activate` seats an
      honest source and `Arrive` is how a dishonest one speaks; the seating of a dishonest
      source; delivery on an honest leg in either direction; an act or a timer of an honest
      source. */
  datatype Move =
    | Middle(step: Step)
    | Stranger
    | Up(i: nat)
    | Down(i: nat)
    | Acts(i: nat, act: Act)
    | Flushes(i: nat)

  function Sent(seat: Seat, out: seq<Frame>): Seat {
    seat.(source := seat.source.(down := seat.source.down + out))
  }

  /** The leg that a step of the middle concerns. */
  function Concerns(step: Step, n: nat): nat {
    match step
    case Close(i) => i
    case GrantLeg(i, _) => i
    case ToEntry(i) => i
    case _ => n
  }

  function Joined(r: Route, honest: bool): Route {
    var c := Next(r.circuit, Activate).0;
    r.(circuit := c, seats := if |c.slots| > |r.seats| then r.seats + [NewSeat(honest)] else r.seats)
  }

  predicate Honest(r: Route, i: nat) {
    i < |r.seats| && i < |r.circuit.slots| && r.seats[i].honest
  }

  function MiddleMove(r: Route, step: Step): Route {
    var (c, out) := Next(r.circuit, step);
    var i := Concerns(step, |r.seats|);
    if step.Arrive? then if Honest(r, step.i) then r else r.(circuit := c)
    else if step.Activate? then Joined(r, true)
    else if i >= |r.seats| || i >= |r.circuit.slots| then r.(circuit := c)
    else if step.Close? then
      r.(circuit := c,
         seats := if r.circuit.slots[i].rec.live
                  then r.seats[i := r.seats[i].(rec := r.circuit.slots[i].rec, leg := r.circuit.slots[i].leg)]
                  else r.seats)
    else r.(circuit := c, seats := r.seats[i := Sent(r.seats[i], out)])
  }

  function UpMove(r: Route, i: nat): Route
    requires i < |r.seats| && i < |r.circuit.slots|
  {
    var p := r.seats[i].source;
    var s := r.circuit.slots[i];
    if p.up == [] || !s.rec.live then r else
    var o := FromSource(s, r.circuit.shared, p.up[0], false);
    if o.Refused? then r.(rejected := true)
    else r.(circuit := Commit(r.circuit, i, o).0, seats := r.seats[i := r.seats[i].(source := TakenUp(p, o.out))])
  }

  function Settled(r: Route, i: nat, reaction: Reaction): Route
    requires i < |r.seats|
  {
    if reaction.Rejected? then r.(rejected := true)
    else r.(seats := r.seats[i := r.seats[i].(source := reaction.source)])
  }

  function MoveOn(r: Route, move: Move): Route {
    match move
    case Middle(step) => MiddleMove(r, step)
    case Stranger => Joined(r, false)
    case Up(i) => if Honest(r, i) then UpMove(r, i) else r
    case Down(i) =>
      if Honest(r, i) && r.seats[i].source.down != [] then Settled(r, i, Hear(r.seats[i].source)) else r
    case Acts(i, act) => if Honest(r, i) then Settled(r, i, Perform(r.seats[i].source, act)) else r
    case Flushes(i) => if Honest(r, i) then Settled(r, i, Flush(r.seats[i].source)) else r
  }

  function Journey(moves: seq<Move>): Route {
    if moves == [] then START else MoveOn(Journey(moves[..|moves| - 1]), moves[|moves| - 1])
  }

  // ------------------------------------------------------------------ invariant

  /** What the entry knows of the leg, now or when it closed it. */
  function EntryRecord(s: Slot, seat: Seat): Record {
    if s.rec.live then s.rec else seat.rec
  }

  function EntryLeg(s: Slot, seat: Seat): Leg {
    if s.rec.live then s.leg else seat.leg
  }

  predicate SeatInv(s: Slot, seat: Seat) {
    seat.honest ==>
      && LegInv(EntryRecord(s, seat), EntryLeg(s, seat), seat.source)
      && (!s.rec.live ==> Bounded(seat.rec, seat.leg))
  }

  predicate Agreement(r: Route) {
    && Inv(r.circuit) && !r.rejected
    && |r.seats| == |r.circuit.slots|
    && (forall i :: 0 <= i < |r.seats| ==> SeatInv(r.circuit.slots[i], r.seats[i]))
  }

  lemma BoundedOf(r: Route, i: nat)
    requires Agreement(r) && Honest(r, i)
    ensures var s := r.circuit.slots[i];
      && LegInv(EntryRecord(s, r.seats[i]), EntryLeg(s, r.seats[i]), r.seats[i].source)
      && Bounded(EntryRecord(s, r.seats[i]), EntryLeg(s, r.seats[i]))
  {
    ViewOf(r.circuit, i);
    assert SeatInv(r.circuit.slots[i], r.seats[i]);
  }

  lemma SettledAgrees(r: Route, i: nat, reaction: Reaction)
    requires Agreement(r) && Honest(r, i) && reaction.Took?
    requires LegInv(EntryRecord(r.circuit.slots[i], r.seats[i]), EntryLeg(r.circuit.slots[i], r.seats[i]), reaction.source)
    ensures Agreement(Settled(r, i, reaction))
  {
    assert SeatInv(r.circuit.slots[i], r.seats[i]);
  }

  lemma UpAgrees(r: Route, i: nat)
    requires Agreement(r) && Honest(r, i)
    ensures Agreement(UpMove(r, i))
  {
    hide Inv, LegInv, SlotInv, View, FromSource;
    var p := r.seats[i].source;
    var s := r.circuit.slots[i];
    if p.up != [] && s.rec.live {
      ViewOf(r.circuit, i);
      assert SeatInv(s, r.seats[i]);
      HonestAccepted(s, r.circuit.shared, p);
      AcceptKeeps(r.circuit, i, p.up[0], false);
      StillLive(s, r.circuit.shared, p.up[0]);
    }
  }

  lemma StillLive(s: Slot, g: Shared, f: Frame)
    requires FromSource(s, g, f, false).Done?
    ensures FromSource(s, g, f, false).slot.rec.live == s.rec.live
  {
  }

  // ---------------------------------------------- steps of the middle

  /** What the destination does changes nothing the entry keeps for the leg. */
  predicate SameLeg(s: Slot, o: Outcome) {
    o.Done? ==> o.slot.rec == s.rec && o.slot.leg == s.leg
  }

  lemma DestinationStepsSpareLegs(s: Slot, g: Shared, newest: bool, admit: bool, n: nat)
    ensures s.fwd != [] ==> SameLeg(s, FromEntry(s, g, newest, admit))
    ensures SameLeg(s, DstGrant(s, g, n)) && SameLeg(s, DstRelease(s, g))
  {
  }

  lemma ApplicationSparesLegs(s: Slot, g: Shared, act: Act)
    ensures SameLeg(s, DstAct(s, g, act))
  {
  }

  /** Slots that look the same to their legs keep every agreement. */
  lemma SameLegsAgree(r: Route, c: Circuit)
    requires Agreement(r) && Inv(c) && |c.slots| == |r.circuit.slots|
    requires forall i :: 0 <= i < |c.slots| ==>
      c.slots[i].rec == r.circuit.slots[i].rec && c.slots[i].leg == r.circuit.slots[i].leg
    ensures Agreement(r.(circuit := c))
  {
    hide Inv, LegInv;
    forall i | 0 <= i < |r.seats| ensures SeatInv(c.slots[i], r.seats[i]) {
      assert SeatInv(r.circuit.slots[i], r.seats[i]);
    }
  }

  lemma CommitSame(c: Circuit, i: nat, o: Outcome)
    requires i < |c.slots| && SameLeg(c.slots[i], o)
    ensures var d := Commit(c, i, o).0;
      |d.slots| == |c.slots| && forall j :: 0 <= j < |c.slots| ==>
        d.slots[j].rec == c.slots[j].rec && d.slots[j].leg == c.slots[j].leg
  {
  }

  /** No leg sees what the destination does. */
  lemma DestinationSparesLegs(c: Circuit, step: Step)
    requires step.ToDestination? || step.GrantStream? || step.Reclaim? || step.Application?
    ensures var d := Next(c, step).0;
      |d.slots| == |c.slots| && forall j :: 0 <= j < |c.slots| ==>
        d.slots[j].rec == c.slots[j].rec && d.slots[j].leg == c.slots[j].leg
  {
    hide FromEntry, DstGrant, DstRelease, DstAct, SameLeg, Commit, Attached;
    var i := step.i;
    if !c.failed && i < |c.slots| {
      var s := c.slots[i];
      match step
      case ToDestination(_, admit) =>
        DestinationStepsSpareLegs(s, c.shared, Id(i) > c.lastStreamId, admit, 0);
        if s.fwd != [] { CommitSame(c, i, FromEntry(s, c.shared, Id(i) > c.lastStreamId, admit)); }
      case GrantStream(_, n) =>
        DestinationStepsSpareLegs(s, c.shared, false, false, n);
        CommitSame(c, i, DstGrant(s, c.shared, n));
      case Reclaim(_) =>
        DestinationStepsSpareLegs(s, c.shared, false, false, 0);
        CommitSame(c, i, DstRelease(s, c.shared));
      case Application(_, act) =>
        ApplicationSparesLegs(s, c.shared, act);
        CommitSame(c, i, DstAct(s, c.shared, act));
    }
  }

  lemma DestinationAgrees(r: Route, step: Step)
    requires Agreement(r)
    requires step.ToDestination? || step.GrantStream? || step.Reclaim? || step.Application?
    ensures Agreement(MiddleMove(r, step))
  {
    hide Inv, SeatInv, Next;
    StepKeeps(r.circuit, step);
    DestinationSparesLegs(r.circuit, step);
    SameLegsAgree(r, Next(r.circuit, step).0);
  }

  lemma SharedAgrees(r: Route, step: Step)
    requires Agreement(r)
    requires step.CircuitToEntry? || step.CircuitToDestination? || step.FlushEntry? || step.FlushDestination?
    ensures Agreement(MiddleMove(r, step))
  {
    hide Inv, SeatInv;
    StepKeeps(r.circuit, step);
    SameLegsAgree(r, Next(r.circuit, step).0);
  }

  lemma NewSeatAgrees(s: Slot, seat: Seat)
    requires s == ACTIVATED && (seat == NewSeat(true) || seat == NewSeat(false))
    ensures SeatInv(s, seat)
  {
    hide LegInv;
    NewLegAgrees(s.rec, s.leg, seat.source);
  }

  lemma JoinedAgrees(r: Route, honest: bool)
    requires Agreement(r)
    ensures Agreement(Joined(r, honest))
  {
    hide Inv, SlotInv, LegInv, Conserved;
    StepKeeps(r.circuit, Activate);
    NewSeatAgrees(ACTIVATED, NewSeat(honest));
  }

  lemma CloseAgrees(r: Route, i: nat)
    requires Agreement(r)
    ensures Agreement(MiddleMove(r, Close(i)))
  {
    hide Inv, SlotInv, LegInv, Conserved;
    StepKeeps(r.circuit, Close(i));
    if Honest(r, i) {
      BoundedOf(r, i);
    }
  }

  /** What a dishonest source sends, valid or not, concerns its own leg alone. */
  lemma ArriveSparesOthers(r: Route, i: nat, f: Frame, tooSoon: bool)
    requires Agreement(r) && !Honest(r, i)
    ensures Agreement(MiddleMove(r, Arrive(i, f, tooSoon)))
  {
    hide Inv, SlotInv, LegInv, Conserved, FromSource, CloseLeg;
    StepKeeps(r.circuit, Arrive(i, f, tooSoon));
    var c := Next(r.circuit, Arrive(i, f, tooSoon)).0;
    forall j | 0 <= j < |r.seats|
      ensures SeatInv(c.slots[j], r.seats[j])
    {
      assert SeatInv(r.circuit.slots[j], r.seats[j]);
    }
  }

  /** One leg takes part: its slot and its seat change together. */
  lemma LegAgrees(r: Route, i: nat, o: Outcome, seat: Seat)
    requires Agreement(r) && i < |r.seats| && o.Done?
    requires Inv(Commit(r.circuit, i, o).0) && SeatInv(o.slot, seat)
    ensures Agreement(r.(circuit := Commit(r.circuit, i, o).0, seats := r.seats[i := seat]))
  {
  }

  lemma GrantLegAgrees(r: Route, i: nat, n: nat)
    requires Agreement(r)
    ensures Agreement(MiddleMove(r, GrantLeg(i, n)))
  {
    hide Inv, SlotInv, LegInv, Conserved;
    StepKeeps(r.circuit, GrantLeg(i, n));
    if i < |r.seats| {
      ViewOf(r.circuit, i);
      var s := r.circuit.slots[i];
      var o := Grant(s, r.circuit.shared, n);
      if r.seats[i].honest {
        BoundedOf(r, i);
      }
      if r.seats[i].honest && s.rec.live {
        GrantAgrees(s, r.circuit.shared, r.seats[i].source, n);
      } else {
        assert r.seats[i].source.down + [] == r.seats[i].source.down;
      }
      LegAgrees(r, i, o, Sent(r.seats[i], o.out));
    }
  }

  lemma ToEntryAgrees(r: Route, i: nat)
    requires Agreement(r)
    ensures Agreement(MiddleMove(r, ToEntry(i)))
  {
    hide Inv, SlotInv, LegInv, Conserved;
    StepKeeps(r.circuit, ToEntry(i));
    if i < |r.seats| {
      if r.seats[i].honest {
        BoundedOf(r, i);
      }
      var s := r.circuit.slots[i];
      assert r.seats[i].source.down + [] == r.seats[i].source.down;
      if s.bwd != [] {
        ViewOf(r.circuit, i);
        FromDestinationSound(s, r.circuit.shared);
        FromDestinationKeepsLife(s, r.circuit.shared);
        Well(s);
        var o := FromDestination(s, r.circuit.shared);
        if r.seats[i].honest && s.rec.live {
          ForwardAgrees(s, r.circuit.shared, r.seats[i].source);
        }
        LegAgrees(r, i, o, Sent(r.seats[i], o.out));
      } else {
        assert r.seats[i := Sent(r.seats[i], [])] == r.seats;
      }
    }
  }

  lemma Well(s: Slot)
    requires SlotInv(s) && s.bwd != []
    ensures StreamFrame(s.bwd[0])
  {
  }

  lemma FromDestinationKeepsLife(s: Slot, g: Shared)
    requires s.bwd != [] && FromDestination(s, g).Done?
    ensures FromDestination(s, g).slot.rec.live == s.rec.live
    ensures !s.rec.live ==> FromDestination(s, g).out == []
  {
  }

  lemma MiddleAgrees(r: Route, step: Step)
    requires Agreement(r)
    ensures Agreement(MiddleMove(r, step))
  {
    hide Inv, SlotInv, LegInv, Conserved;
    match step
    case Arrive(i, f, tooSoon) => if !Honest(r, i) { ArriveSparesOthers(r, i, f, tooSoon); }
    case Activate => JoinedAgrees(r, true);
    case Close(i) => CloseAgrees(r, i);
    case GrantLeg(i, n) => GrantLegAgrees(r, i, n);
    case ToEntry(i) => ToEntryAgrees(r, i);
    case ToDestination(_, _) => DestinationAgrees(r, step);
    case GrantStream(_, _) => DestinationAgrees(r, step);
    case Reclaim(_) => DestinationAgrees(r, step);
    case Application(_, _) => DestinationAgrees(r, step);
    case _ => SharedAgrees(r, step);
  }

  lemma MoveAgrees(r: Route, move: Move)
    requires Agreement(r)
    ensures Agreement(MoveOn(r, move))
  {
    hide Inv, SlotInv, LegInv, Conserved;
    match move
    case Middle(step) => MiddleAgrees(r, step);
    case Stranger => JoinedAgrees(r, false);
    case Up(i) => if Honest(r, i) { UpAgrees(r, i); }
    case Down(i) =>
      if Honest(r, i) && r.seats[i].source.down != [] {
        BoundedOf(r, i);
        var s := r.circuit.slots[i];
        HearAgrees(EntryRecord(s, r.seats[i]), EntryLeg(s, r.seats[i]), r.seats[i].source);
        SettledAgrees(r, i, Hear(r.seats[i].source));
      }
    case Acts(i, act) =>
      if Honest(r, i) {
        BoundedOf(r, i);
        var s := r.circuit.slots[i];
        ActAgrees(EntryRecord(s, r.seats[i]), EntryLeg(s, r.seats[i]), r.seats[i].source, act);
        SettledAgrees(r, i, Perform(r.seats[i].source, act));
      }
    case Flushes(i) =>
      if Honest(r, i) {
        BoundedOf(r, i);
        var s := r.circuit.slots[i];
        FlushAgrees(EntryRecord(s, r.seats[i]), EntryLeg(s, r.seats[i]), r.seats[i].source);
        SettledAgrees(r, i, Flush(r.seats[i].source));
      }
  }

  lemma NobodySeatedAgrees(r: Route)
    requires Inv(r.circuit) && !r.rejected && |r.seats| == |r.circuit.slots| == 0
    ensures Agreement(r)
  {
    hide Inv, LegInv;
  }

  lemma {:induction false} JourneyAgrees(moves: seq<Move>)
    ensures Agreement(Journey(moves))
  {
    hide Inv, LegInv, MoveOn;
    if moves == [] {
      InitialKeeps(START.circuit);
      NobodySeatedAgrees(START);
    } else {
      JourneyAgrees(moves[..|moves| - 1]);
      MoveAgrees(Journey(moves[..|moves| - 1]), moves[|moves| - 1]);
    }
  }

  /** What entry and source agree on while the leg is live and the stream active: all
      credit is held, spent or in transit, and every demand, grant and cancellation has its
      counterpart. */
  predicate Matched(s: Slot, p: Source) {
    var t := p.e.tx;
    var asked, acks, coming := Total(Wanted, p.up), Total(Cancels, p.down), Total(CircuitGrant, p.down);
    // Circuit credit of the leg, and stream credit of the source.
    && s.leg.granted == t.circuitCredit + coming + Total(Cell, p.up) + Total(Released, p.up)
    && s.rec.sendCredit == t.sendCredit + Total(StreamGrant, p.down) + Total(Cell, p.up)
    // The windows of DATA coming down: circuit and stream.
    && s.rec.reverseInFlight == Total(Cell, p.down) + p.e.rx.outstanding + p.circuitReturn + Total(CircuitGrant, p.up)
    && p.circuitReceive + p.e.rx.outstanding + p.circuitReturn == CIRCUIT_WINDOW
    && s.rec.receiveCredit + Total(Cell, p.down) + Total(StreamGrant, p.up) == p.e.rx.receiveCredit
    && p.e.rx.receiveCredit + p.e.rx.outstanding + p.e.rx.streamReturnPending == STREAM_WINDOW
    // A demand on its way finds an idle pool leg; one that arrived is owed or being granted.
    && (asked > 0 ==> asked == t.circuitRequested && s.leg.wanted == 0 && coming == 0)
    && (asked == 0 && acks == 0 ==> t.circuitRequested == s.leg.wanted + coming)
    && (acks > 0 ==> s.leg.wanted == 0 && coming <= t.circuitRequested)
    // A cancellation is under way, or acknowledged on its way back, exactly while one is open.
    && Total(Cancels, p.up) + acks == (if t.circuitCanceling then 1 else 0)
  }

  lemma SeatMatched(s: Slot, seat: Seat)
    requires SeatInv(s, seat) && seat.honest && s.rec.live && seat.source.e.phase == Active
    ensures Matched(s, seat.source)
  {
  }

  /** In every run, whatever the dishonest sources on the same circuit send, no frame of an
      honest leg is ever found invalid at either end, nothing on the shared link is refused,
      and entry and source of every live honest leg agree on all credit. */
  lemma {:induction false} HonestRunsAreClean(moves: seq<Move>)
    ensures var r := Journey(moves);
      && !r.rejected && !r.circuit.failed
      && Conserved(r.circuit.slots, r.circuit.shared)
      && |r.seats| == |r.circuit.slots|
      && forall i: nat :: Honest(r, i) && r.circuit.slots[i].rec.live && r.seats[i].source.e.phase == Active ==>
        Matched(r.circuit.slots[i], r.seats[i].source)
  {
    JourneyAgrees(moves);
    var r := Journey(moves);
    hide Journey, LegInv, Matched, SlotInv;
    forall i: nat | Honest(r, i) && r.circuit.slots[i].rec.live && r.seats[i].source.e.phase == Active
      ensures Matched(r.circuit.slots[i], r.seats[i].source)
    {
      SeatMatched(r.circuit.slots[i], r.seats[i]);
    }
  }
}
