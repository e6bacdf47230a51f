/**
 Whole runs of a shared circuit: any number of streams, any interleaving, any frames
 from the source legs.  The six conservation laws hold in every reachable state, and no
 frame on the shared link is ever refused.
 */
module CircuitRuns {
  import opened Limits
  import opened Frames
  import opened Endpoint
  import opened SharedCircuit

  const CIRCUIT_STREAM_ID: nat := 0xffff_ffff

  /** `failed` records that the entry or the destination tore the circuit down, or
      destroyed a stream, because a frame on the shared link was invalid. */
  datatype Circuit = Circuit(slots: seq<Slot>, shared: Shared, lastStreamId: nat, failed: bool)

  const INITIAL := Circuit(
    [],
    Shared(CIRCUIT_WINDOW, 0, CIRCUIT_WINDOW, 0, CIRCUIT_WINDOW, 0, CIRCUIT_WINDOW, 0, [], []),
    0, false)

  /** Stream ids are even and never reused. */
  function Id(i: nat): nat {
    2 * i + 2
  }

  datatype Step =
    | Activate
    | Arrive(i: nat, frame: Frame, tooSoon: bool)
    | Close(i: nat)
    | GrantLeg(i: nat, amount: nat)
    | ToEntry(i: nat)
    | ToDestination(i: nat, admit: bool)
    | CircuitToEntry
    | CircuitToDestination
    | FlushEntry
    | FlushDestination
    | GrantStream(i: nat, amount: nat)
    | Reclaim(i: nat)
    | Application(i: nat, act: Act)

  function LiveLegs(slots: seq<Slot>): nat {
    if slots == [] then 0 else LiveLegs(slots[..|slots| - 1]) + (if slots[|slots| - 1].rec.live then 1 else 0)
  }

  /** The shared link keeps each stream's order and serves the first frames of new streams
      in the order the streams were created (`LinkedRuns.SchedulerSuffices` derives this
      from the scheduler). */
  predicate Deliverable(c: Circuit, i: nat) {
    && i < |c.slots| && c.slots[i].fwd != []
    && (c.slots[i].fwd[0].Open? ==>
          forall j :: 0 <= j < i ==> c.slots[j].dst.phase != Unopened)
  }

  function Commit(c: Circuit, i: nat, o: Outcome): (Circuit, seq<Frame>)
    requires i < |c.slots|
  {
    if o.Refused? then (c.(failed := true), [])
    else (c.(slots := c.slots[i := o.slot], shared := o.shared), o.out)
  }

  /** One step; the frames are what the entry sends down the leg the step names.  A frame
      a source leg may not send costs that leg its link and nothing else. */
  function Next(c: Circuit, step: Step): (Circuit, seq<Frame>) {
    var g := c.shared;
    if c.failed then (c, []) else
    match step
    case Activate =>
      if LiveLegs(c.slots) >= MAX_ROUTE_STREAMS || Id(|c.slots|) >= CIRCUIT_STREAM_ID then (c, [])
      else (c.(slots := c.slots + [ACTIVATED]), [])
    case Arrive(i, f, tooSoon) =>
      if i >= |c.slots| || !c.slots[i].rec.live then (c, []) else
      var o := FromSource(c.slots[i], g, f, tooSoon);
      Commit(c, i, if o.Done? then o else CloseLeg(c.slots[i], g))
    case Close(i) => if i >= |c.slots| then (c, []) else Commit(c, i, CloseLeg(c.slots[i], g))
    case GrantLeg(i, n) => if i >= |c.slots| then (c, []) else Commit(c, i, Grant(c.slots[i], g, n))
    case ToEntry(i) =>
      if i >= |c.slots| || c.slots[i].bwd == [] then (c, [])
      else Commit(c, i, FromDestination(c.slots[i], g))
    case ToDestination(i, admit) =>
      if !Deliverable(c, i) then (c, []) else
      var (c1, out) := Commit(c, i, FromEntry(c.slots[i], g, Id(i) > c.lastStreamId, admit));
      (if c.slots[i].fwd[0].Open? then c1.(lastStreamId := Id(i)) else c1, out)
    case CircuitToEntry =>
      if g.toEntry == [] then (c, [])
      else if g.toEntry[0] == 0 || g.toEntry[0] > g.inFlight then (c.(failed := true), [])
      else (c.(shared := g.(toEntry := g.toEntry[1..], inFlight := g.inFlight - g.toEntry[0],
                            available := g.available + g.toEntry[0])), [])
    case CircuitToDestination =>
      if g.toDst == [] then (c, [])
      else if g.toDst[0] == 0 || g.toDst[0] > g.dInFlight then (c.(failed := true), [])
      else (c.(shared := g.(toDst := g.toDst[1..], dInFlight := g.dInFlight - g.toDst[0],
                            dAvailable := g.dAvailable + g.toDst[0])), [])
    case FlushEntry => (c.(shared := ReturnReverse(g, 0, true), failed := Overflowed(ReturnReverse(g, 0, true))), [])
    case FlushDestination => (c.(shared := Consumed(g, 0, true), failed := Overflowed(Consumed(g, 0, true))), [])
    case GrantStream(i, n) => if i >= |c.slots| then (c, []) else Commit(c, i, DstGrant(c.slots[i], g, n))
    case Reclaim(i) =>
      if i >= |c.slots| || !Attached(c.slots[i].dst) then (c, []) else Commit(c, i, DstRelease(c.slots[i], g))
    case Application(i, act) => if i >= |c.slots| then (c, []) else Commit(c, i, DstAct(c.slots[i], g, act))
  }

  function Run(steps: seq<Step>): Circuit {
    if steps == [] then INITIAL else Next(Run(steps[..|steps| - 1]), steps[|steps| - 1]).0
  }

  // ---------------------------------------------------------------- conserved sums

  /** What one stream contributes to each conserved window. */
  datatype Meter = GrantedCells | ForwardCells | HeldCells | LocalGrants | ReverseCells | ReverseHeld

  function Measure(m: Meter, s: Slot): nat {
    match m
    case GrantedCells => s.leg.granted
    case ForwardCells => Total(Cell, s.fwd)
    case HeldCells => s.dst.rx.outstanding
    case LocalGrants => s.dleg.granted
    case ReverseCells => Total(Cell, s.bwd)
    case ReverseHeld => s.rec.reverseInFlight
  }

  function SumOf(m: Meter, slots: seq<Slot>): nat {
    if slots == [] then 0 else SumOf(m, slots[..|slots| - 1]) + Measure(m, slots[|slots| - 1])
  }

  lemma {:induction false} SumUpdate(m: Meter, slots: seq<Slot>, i: nat, s: Slot)
    requires i < |slots|
    ensures SumOf(m, slots[i := s]) == SumOf(m, slots) - Measure(m, slots[i]) + Measure(m, s)
    ensures Measure(m, slots[i]) <= SumOf(m, slots)
    decreases |slots|
  {
    var n := |slots| - 1;
    if i == n {
      assert slots[i := s][..n] == slots[..n];
    } else {
      assert slots[i := s][..n] == slots[..n][i := s];
      SumUpdate(m, slots[..n], i, s);
    }
  }

  lemma SumsUpdate(slots: seq<Slot>, i: nat, s: Slot)
    requires i < |slots|
    ensures forall m :: SumOf(m, slots[i := s]) == SumOf(m, slots) - Measure(m, slots[i]) + Measure(m, s)
    ensures forall m :: Measure(m, slots[i]) <= SumOf(m, slots)
  {
    forall m ensures SumOf(m, slots[i := s]) == SumOf(m, slots) - Measure(m, slots[i]) + Measure(m, s)
      ensures Measure(m, slots[i]) <= SumOf(m, slots)
    {
      SumUpdate(m, slots, i, s);
    }
  }

  /** The conservation laws.  Forward: the pool splits the window into free credit, grants
      and cells under way; a cell under way is on the link, charged at the destination, or
      returned by a CREDIT on the link; the destination's window splits into free credit,
      cells held for readers, and consumed cells not yet returned.  Reverse: the same three
      laws with the roles exchanged. */
  predicate Conserved(slots: seq<Slot>, g: Shared) {
    && g.available + SumOf(GrantedCells, slots) + g.inFlight == CIRCUIT_WINDOW
    && g.inFlight == SumOf(ForwardCells, slots) + (CIRCUIT_WINDOW - g.receiveCredit) + Sum(g.toEntry)
    && g.receiveCredit + SumOf(HeldCells, slots) + g.returnPending == CIRCUIT_WINDOW
    && g.dAvailable + SumOf(LocalGrants, slots) + g.dInFlight == CIRCUIT_WINDOW
    && g.dInFlight == SumOf(ReverseCells, slots) + (CIRCUIT_WINDOW - g.reverseCredit) + Sum(g.toDst)
    && g.reverseCredit + SumOf(ReverseHeld, slots) + g.reversePending == CIRCUIT_WINDOW
    && Positive(g.toEntry) && Positive(g.toDst)
  }

  predicate EverySlot(slots: seq<Slot>) {
    forall i :: 0 <= i < |slots| ==> SlotInv(slots[i])
  }

  /** The streams the destination has seen opened are exactly those up to `lastStreamId`. */
  predicate OpenedInOrder(slots: seq<Slot>, lastStreamId: nat) {
    forall i :: 0 <= i < |slots| ==> (slots[i].dst.phase == Unopened <==> Id(i) > lastStreamId)
  }

  predicate Inv(c: Circuit) {
    && !c.failed
    && Conserved(c.slots, c.shared)
    && EverySlot(c.slots)
    && OpenedInOrder(c.slots, c.lastStreamId)
    && c.lastStreamId <= 2 * |c.slots|
  }

  lemma ViewOf(c: Circuit, i: nat)
    requires Inv(c) && i < |c.slots|
    ensures !c.failed && SlotInv(c.slots[i]) && View(c.slots[i], c.shared)
  {
    hide SumOf, Sum, Positive, Total, SlotInv;
    SumsUpdate(c.slots, i, c.slots[i]);
    assert Measure(GrantedCells, c.slots[i]) <= SumOf(GrantedCells, c.slots);
    assert Measure(ForwardCells, c.slots[i]) <= SumOf(ForwardCells, c.slots);
    assert Measure(HeldCells, c.slots[i]) <= SumOf(HeldCells, c.slots);
    assert Measure(LocalGrants, c.slots[i]) <= SumOf(LocalGrants, c.slots);
    assert Measure(ReverseCells, c.slots[i]) <= SumOf(ReverseCells, c.slots);
    assert Measure(ReverseHeld, c.slots[i]) <= SumOf(ReverseHeld, c.slots);
  }

  /** A sound outcome for one stream keeps the laws of the whole circuit. */
  lemma BalanceIsConservation(slots: seq<Slot>, g: Shared, i: nat, s: Slot, g': Shared)
    requires Conserved(slots, g) && i < |slots| && Balanced(slots[i], g, s, g')
    ensures Conserved(slots[i := s], g')
  {
    hide SumOf, Sum, Total, Positive;
    SumsUpdate(slots, i, s);
  }

  lemma CommitKeeps(c: Circuit, i: nat, o: Outcome)
    requires Inv(c) && i < |c.slots| && Sound(c.slots[i], c.shared, o)
    requires o.slot.dst.phase == Unopened <==> c.slots[i].dst.phase == Unopened
    ensures Inv(Commit(c, i, o).0)
  {
    hide Conserved, Balanced, SlotInv;
    BalanceIsConservation(c.slots, c.shared, i, o.slot, o.shared);
  }

  lemma SumsAppend(slots: seq<Slot>, s: Slot)
    ensures forall m :: SumOf(m, slots + [s]) == SumOf(m, slots) + Measure(m, s)
  {
    assert (slots + [s])[..|slots|] == slots;
  }

  lemma FreshMeasures(s: Slot)
    requires s == ACTIVATED
    ensures SlotInv(s) && forall m :: Measure(m, s) == 0
  {
    assert s.fwd[1..] == [];
    Empty(s.bwd);
    Empty(s.fwd[1..]);
    Popped(s.fwd);
  }

  lemma ActivateKeeps(c: Circuit)
    requires Inv(c)
    ensures Inv(c.(slots := c.slots + [ACTIVATED]))
  {
    var slots := c.slots + [ACTIVATED];
    SumsAppend(c.slots, ACTIVATED);
    FreshMeasures(ACTIVATED);
    hide SumOf, SlotInv, Measure, Positive, Sum;
  }

  lemma OpenKeeps(c: Circuit, i: nat, o: Outcome)
    requires Inv(c) && i < |c.slots| && Sound(c.slots[i], c.shared, o) && Id(i) > c.lastStreamId
    requires forall j :: 0 <= j < i ==> c.slots[j].dst.phase != Unopened
    requires o.slot.dst.phase != Unopened
    ensures Inv(Commit(c, i, o).0.(lastStreamId := Id(i)))
  {
    hide Conserved, Balanced, SlotInv;
    BalanceIsConservation(c.slots, c.shared, i, o.slot, o.shared);
  }

  lemma OpensAreNewest(c: Circuit, i: nat)
    requires Inv(c) && i < |c.slots| && c.slots[i].fwd != []
    ensures c.slots[i].fwd[0].Open? ==> Id(i) > c.lastStreamId
  {
    assert SlotInv(c.slots[i]);
  }

  lemma DeliverKeeps(c: Circuit, i: nat, admit: bool)
    requires Inv(c) && Deliverable(c, i)
    ensures var o := FromEntry(c.slots[i], c.shared, Id(i) > c.lastStreamId, admit);
      if c.slots[i].fwd[0].Open? then Inv(Commit(c, i, o).0.(lastStreamId := Id(i))) else Inv(Commit(c, i, o).0)
  {
    hide Inv, SlotInv, Conserved, Balanced;
    ViewOf(c, i);
    var newest := Id(i) > c.lastStreamId;
    OpensAreNewest(c, i);
    FromEntrySound(c.slots[i], c.shared, newest, admit);
    FromEntryPhase(c.slots[i], c.shared, newest, admit);
    var o := FromEntry(c.slots[i], c.shared, newest, admit);
    if c.slots[i].fwd[0].Open? {
      OpenKeeps(c, i, o);
    } else {
      CommitKeeps(c, i, o);
    }
  }

  /** A destination stream comes into being by its OPEN and by nothing else. */
  lemma FromEntryPhase(s: Slot, g: Shared, newest: bool, admit: bool)
    requires SlotInv(s) && s.fwd != [] && FromEntry(s, g, newest, admit).Done?
    ensures var o := FromEntry(s, g, newest, admit);
      if s.fwd[0].Open? then o.slot.dst.phase != Unopened
      else (o.slot.dst.phase == Unopened <==> s.dst.phase == Unopened)
    ensures s.fwd[0].Open? ==> newest
  {
  }

  lemma AcceptKeeps(c: Circuit, i: nat, f: Frame, tooSoon: bool)
    requires Inv(c) && i < |c.slots| && c.slots[i].rec.live
    requires FromSource(c.slots[i], c.shared, f, tooSoon).Done?
    ensures Inv(Commit(c, i, FromSource(c.slots[i], c.shared, f, tooSoon)).0)
  {
    hide Inv, SlotInv, Conserved, Balanced;
    ViewOf(c, i);
    FromSourceKeeps(c.slots[i], c.shared, f, tooSoon);
    FromSourceBalances(c.slots[i], c.shared, f, tooSoon);
    CommitKeeps(c, i, FromSource(c.slots[i], c.shared, f, tooSoon));
  }

  /** Whatever a source sends, valid or not, on whatever leg. */
  lemma ArriveKeeps(c: Circuit, i: nat, f: Frame, tooSoon: bool)
    requires Inv(c)
    ensures Inv(Next(c, Arrive(i, f, tooSoon)).0)
  {
    hide Inv, SlotInv, Conserved, Balanced, FromSource;
    if i < |c.slots| && c.slots[i].rec.live {
      if FromSource(c.slots[i], c.shared, f, tooSoon).Done? {
        AcceptKeeps(c, i, f, tooSoon);
      } else {
        CloseKeeps(c, i);
      }
    }
  }

  lemma CloseKeeps(c: Circuit, i: nat)
    requires Inv(c) && i < |c.slots|
    ensures Inv(Commit(c, i, CloseLeg(c.slots[i], c.shared)).0)
  {
    hide Inv, SlotInv, Conserved, Balanced;
    ViewOf(c, i);
    CloseLegKeeps(c.slots[i], c.shared);
    CloseLegBalances(c.slots[i], c.shared);
    CommitKeeps(c, i, CloseLeg(c.slots[i], c.shared));
  }

  lemma GrantStreamKeeps(c: Circuit, i: nat, n: nat)
    requires Inv(c) && i < |c.slots|
    ensures Inv(Commit(c, i, DstGrant(c.slots[i], c.shared, n)).0)
  {
    hide Inv, SlotInv, Conserved, Balanced;
    ViewOf(c, i);
    DstGrantKeeps(c.slots[i], c.shared, n);
    DstGrantBalances(c.slots[i], c.shared, n);
    CommitKeeps(c, i, DstGrant(c.slots[i], c.shared, n));
  }

  lemma ApplicationKeeps(c: Circuit, i: nat, act: Act)
    requires Inv(c) && i < |c.slots|
    ensures Inv(Commit(c, i, DstAct(c.slots[i], c.shared, act)).0)
  {
    hide Inv, SlotInv, Conserved, Balanced;
    ViewOf(c, i);
    DstActSound(c.slots[i], c.shared, act);
    CommitKeeps(c, i, DstAct(c.slots[i], c.shared, act));
  }

  lemma ToEntryKeeps(c: Circuit, i: nat)
    requires Inv(c) && i < |c.slots| && c.slots[i].bwd != []
    ensures Inv(Commit(c, i, FromDestination(c.slots[i], c.shared)).0)
  {
    hide Inv, SlotInv, Conserved, Balanced;
    ViewOf(c, i);
    FromDestinationSound(c.slots[i], c.shared);
    CommitKeeps(c, i, FromDestination(c.slots[i], c.shared));
  }

  lemma FlushConserves(slots: seq<Slot>, g: Shared)
    requires Conserved(slots, g)
    ensures Conserved(slots, ReturnReverse(g, 0, true)) && !Overflowed(ReturnReverse(g, 0, true))
    ensures Conserved(slots, Consumed(g, 0, true)) && !Overflowed(Consumed(g, 0, true))
  {
    hide SumOf, Sum, ReturnReverse, Consumed;
    ReturnReverseMoves(g, 0, true);
    ConsumedMoves(g, 0, true);
  }

  lemma CreditConserves(slots: seq<Slot>, g: Shared)
    requires Conserved(slots, g)
    ensures g.toEntry != [] ==>
      && 0 < g.toEntry[0] <= g.inFlight
      && Conserved(slots, g.(toEntry := g.toEntry[1..], inFlight := g.inFlight - g.toEntry[0],
                             available := g.available + g.toEntry[0]))
    ensures g.toDst != [] ==>
      && 0 < g.toDst[0] <= g.dInFlight
      && Conserved(slots, g.(toDst := g.toDst[1..], dInFlight := g.dInFlight - g.toDst[0],
                             dAvailable := g.dAvailable + g.toDst[0]))
  {
    hide SumOf;
    assert g.toEntry != [] ==> Sum(g.toEntry) == g.toEntry[0] + Sum(g.toEntry[1..]);
    assert g.toDst != [] ==> Sum(g.toDst) == g.toDst[0] + Sum(g.toDst[1..]);
  }

  lemma SharedOnlyKeeps(c: Circuit, step: Step)
    requires Inv(c) && (step.CircuitToEntry? || step.CircuitToDestination? || step.FlushEntry? || step.FlushDestination?)
    ensures Inv(Next(c, step).0)
  {
    hide Conserved, EverySlot, OpenedInOrder, ReturnReverse, Consumed, Overflowed;
    FlushConserves(c.slots, c.shared);
    CreditConserves(c.slots, c.shared);
  }

  lemma EntryStepKeeps(c: Circuit, step: Step)
    requires Inv(c)
    requires step.Activate? || step.Arrive? || step.Close? || step.GrantLeg? || step.ToEntry?
    ensures Inv(Next(c, step).0)
  {
    hide Inv, SlotInv, Conserved, Balanced;
    match step
    case Activate => ActivateKeeps(c);
    case Arrive(i, f, tooSoon) => ArriveKeeps(c, i, f, tooSoon);
    case Close(i) => if i < |c.slots| { CloseKeeps(c, i); }
    case GrantLeg(i, n) =>
      if i < |c.slots| {
        ViewOf(c, i);
        GrantSound(c.slots[i], c.shared, n);
        CommitKeeps(c, i, Grant(c.slots[i], c.shared, n));
      }
    case ToEntry(i) => if i < |c.slots| && c.slots[i].bwd != [] { ToEntryKeeps(c, i); }
  }

  lemma StepKeeps(c: Circuit, step: Step)
    requires Inv(c)
    ensures Inv(Next(c, step).0)
  {
    hide Inv, SlotInv, Conserved, Balanced;
    match step
    case ToDestination(i, admit) => if Deliverable(c, i) { DeliverKeeps(c, i, admit); }
    case GrantStream(i, n) => if i < |c.slots| { GrantStreamKeeps(c, i, n); }
    case Reclaim(i) => if i < |c.slots| && Attached(c.slots[i].dst) { ReclaimKeeps(c, i); }
    case Application(i, act) => if i < |c.slots| { ApplicationKeeps(c, i, act); }
    case Activate => EntryStepKeeps(c, step);
    case Arrive(_, _, _) => EntryStepKeeps(c, step);
    case Close(_) => EntryStepKeeps(c, step);
    case GrantLeg(_, _) => EntryStepKeeps(c, step);
    case ToEntry(_) => EntryStepKeeps(c, step);
    case _ => SharedOnlyKeeps(c, step);
  }

  lemma ReclaimKeeps(c: Circuit, i: nat)
    requires Inv(c) && i < |c.slots| && Attached(c.slots[i].dst)
    ensures Inv(Commit(c, i, DstRelease(c.slots[i], c.shared)).0)
  {
    hide Inv, SlotInv, Conserved, Balanced;
    ViewOf(c, i);
    DstReleaseSound(c.slots[i], c.shared);
    CommitKeeps(c, i, DstRelease(c.slots[i], c.shared));
  }

  lemma InitialKeeps(c: Circuit)
    requires c == INITIAL
    ensures Inv(c)
  {
  }

  lemma {:induction false} RunKeeps(steps: seq<Step>)
    ensures Inv(Run(steps))
  {
    hide Inv, Next;
    if steps == [] {
      InitialKeeps(INITIAL);
    } else {
      RunKeeps(steps[..|steps| - 1]);
      StepKeeps(Run(steps[..|steps| - 1]), steps[|steps| - 1]);
    }
  }

  /** Whatever frames the source legs send, in every run: the destination holds at most
      2048 unconsumed cells per circuit and 512 per stream, the windows of both directions
      are conserved exactly, and nothing on the shared link is ever refused. */
  lemma {:induction false} WhateverSourcesSend(steps: seq<Step>)
    ensures var c := Run(steps);
      && !c.failed
      && Conserved(c.slots, c.shared)
      && SumOf(HeldCells, c.slots) <= CIRCUIT_WINDOW
      && SumOf(ReverseHeld, c.slots) <= CIRCUIT_WINDOW
      && (forall i :: 0 <= i < |c.slots| ==>
            |c.slots[i].dst.rx.queue| <= c.slots[i].dst.rx.outstanding <= STREAM_WINDOW)
  {
    RunKeeps(steps);
  }
}
