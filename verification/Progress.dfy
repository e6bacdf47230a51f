/**
 The steps of the runs take place: what may arrive does, what may be granted is, and what
 the applications and timers do has its effect.
 */
module Progress {
  import opened Limits
  import opened Frames
  import opened Endpoint
  import opened SharedCircuit
  import opened SourceLeg
  import opened CircuitRuns
  import opened HonestRuns
  import Effects
  import PoolLeg

  // ----------------------------------------------------------- steps of the circuit

  lemma FromEntryTakes(s: Slot, g: Shared, newest: bool, admit: bool)
    requires s.fwd != [] && FromEntry(s, g, newest, admit).Done?
    ensures FromEntry(s, g, newest, admit).slot.fwd == s.fwd[1..]
  {
    hide Accept, Drain, Consumed;
  }

  lemma FromDestinationTakes(s: Slot, g: Shared)
    requires s.bwd != [] && FromDestination(s, g).Done?
    ensures FromDestination(s, g).slot.bwd == s.bwd[1..]
    ensures s.rec.live ==> FromDestination(s, g).out == [s.bwd[0]]
  {
    hide ReturnReverse;
  }

  /** The oldest frame of a stream arrives at the destination as soon as it may... */
  lemma FramesArrive(c: Circuit, i: nat, admit: bool)
    requires Inv(c) && Deliverable(c, i)
    ensures Next(c, ToDestination(i, admit)).0.slots[i].fwd == c.slots[i].fwd[1..]
  {
    hide Inv, SlotInv, View, FromEntry;
    ViewOf(c, i);
    OpensAreNewest(c, i);
    FromEntrySound(c.slots[i], c.shared, Id(i) > c.lastStreamId, admit);
    FromEntryTakes(c.slots[i], c.shared, Id(i) > c.lastStreamId, admit);
  }

  /** ... and at the entry, which passes it on to a live leg. */
  lemma FramesReturn(c: Circuit, i: nat)
    requires Inv(c) && i < |c.slots| && c.slots[i].bwd != []
    ensures var (d, out) := Next(c, ToEntry(i));
      d.slots[i].bwd == c.slots[i].bwd[1..] && (c.slots[i].rec.live ==> out == [c.slots[i].bwd[0]])
  {
    hide Inv, SlotInv, View, FromDestination;
    ViewOf(c, i);
    FromDestinationSound(c.slots[i], c.shared);
    FromDestinationTakes(c.slots[i], c.shared);
  }

  /** Credit that travels at circuit level arrives and is free again. */
  lemma CreditArrives(c: Circuit)
    requires Inv(c)
    ensures c.shared.toEntry != [] ==>
      var g, g' := c.shared, Next(c, CircuitToEntry).0.shared;
      g'.toEntry == g.toEntry[1..] && g'.available == g.available + g.toEntry[0] && g'.inFlight == g.inFlight - g.toEntry[0]
    ensures c.shared.toDst != [] ==>
      var g, g' := c.shared, Next(c, CircuitToDestination).0.shared;
      g'.toDst == g.toDst[1..] && g'.dAvailable == g.dAvailable + g.toDst[0] && g'.dInFlight == g.dInFlight - g.toDst[0]
  {
    hide SlotInv, SumOf;
    StepKeeps(c, CircuitToEntry);
    StepKeeps(c, CircuitToDestination);
  }

  /** The delayed returns leave nothing pending. */
  lemma FlushesReturn(c: Circuit)
    requires Inv(c)
    ensures var g, g' := c.shared, Next(c, FlushEntry).0.shared;
      g'.reversePending == 0 && g'.reverseCredit == g.reverseCredit + g.reversePending
    ensures var g, g' := c.shared, Next(c, FlushDestination).0.shared;
      g'.returnPending == 0 && g'.receiveCredit == g.receiveCredit + g.returnPending
  {
    hide SlotInv, Conserved;
  }

  /** A leg joins exactly while fewer than 64 are live and ids last. */
  lemma LegsJoin(c: Circuit)
    requires Inv(c)
    ensures Next(c, Activate).0.slots
         == c.slots + if LiveLegs(c.slots) < 64 && 2 * |c.slots| + 2 < 0xffff_ffff then [ACTIVATED] else []
  {
    hide SlotInv, Conserved;
  }

  /** The entry's pool can grant whatever is wanted and free, and the leg's source is told. */
  lemma GrantsHappen(c: Circuit, i: nat, n: nat)
    requires Inv(c) && i < |c.slots| && c.slots[i].rec.live && 1 <= n <= c.slots[i].leg.wanted && n <= c.shared.available
    ensures var (d, out) := Next(c, GrantLeg(i, n));
      d.slots[i].leg.granted == c.slots[i].leg.granted + n && out == [CircuitCredit(n)]
  {
    hide Inv, SlotInv, View, Grant;
    ViewOf(c, i);
    Effects.GrantGives(c.slots[i], c.shared, n);
  }

  /** The destination's pool likewise, for a stream that can use the credit. */
  lemma StreamGrantsHappen(c: Circuit, i: nat, n: nat)
    requires Inv(c) && i < |c.slots| && 1 <= n <= c.slots[i].dleg.wanted && n <= c.shared.dAvailable
    requires c.slots[i].dst.phase == Active && c.slots[i].dst.tx.sendCredit > 0 && !c.slots[i].dst.tx.ended
    ensures Next(c, GrantStream(i, n)).0.slots[i].dst.tx.circuitCredit == c.slots[i].dst.tx.circuitCredit + n
  {
    hide Inv, SlotInv, View, DstGrant;
    ViewOf(c, i);
    Effects.DstGrantGives(c.slots[i], c.shared, n);
  }

  lemma WindowAt(s: Slot)
    requires SlotInv(s) && s.dst.phase == Active
    ensures Window(s.dst.rx)
  {
    hide Window;
  }

  lemma ReadsWhenActive(e: Stream)
    ensures Enabled(e, Read) ==> e.phase == Active
  {
  }

  /** What the destination's application does has its effect. */
  lemma ApplicationsAct(c: Circuit, i: nat, act: Act)
    requires Inv(c) && i < |c.slots| && Enabled(c.slots[i].dst, act)
    ensures Effects.ActTakesEffect(c.slots[i].dst, act, Next(c, Application(i, act)).0.slots[i].dst)
  {
    hide Inv, SlotInv, View, DstAct, Enabled, Window, Effects.ActTakesEffect;
    ViewOf(c, i);
    var s, g := c.slots[i], c.shared;
    ReadsWhenActive(s.dst);
    if s.dst.phase == Active {
      WindowAt(s);
    }
    DstActSound(s, g, act);
    Effects.DestinationActs(s, g, act);
  }

  // ---------------------------------------------------------------- moves of a route

  lemma HearTakes(p: Source)
    requires p.down != [] && Hear(p).Took?
    ensures Hear(p).source.down == p.down[1..]
  {
    hide ReturnCircuit, Accept, Drain;
    ReturnSpares(p);
  }

  lemma ReturnSpares(p: Source)
    ensures forall q: Source, amount: nat, flush: bool :: ReturnCircuit(q, amount, flush).down == q.down
  {
  }

  /** On an honest leg the oldest frame on its way down arrives... */
  lemma DownArrives(r: Route, i: nat)
    requires Agreement(r) && Honest(r, i) && r.seats[i].source.down != []
    ensures MoveOn(r, Down(i)).seats[i].source.down == r.seats[i].source.down[1..]
  {
    hide Inv, LegInv, Bounded, Hear;
    var s, p := r.circuit.slots[i], r.seats[i].source;
    BoundedOf(r, i);
    HearAgrees(EntryRecord(s, r.seats[i]), EntryLeg(s, r.seats[i]), p);
    HearTakes(p);
  }

  /** ... and so does the oldest frame on its way up. */
  lemma UpArrives(r: Route, i: nat)
    requires Agreement(r) && Honest(r, i) && r.seats[i].source.up != [] && r.circuit.slots[i].rec.live
    ensures MoveOn(r, Up(i)).seats[i].source.up == r.seats[i].source.up[1..]
  {
    hide Inv, LegInv, Bounded, SlotInv, View, FromSource;
    BoundedOf(r, i);
    ViewOf(r.circuit, i);
    HonestAccepted(r.circuit.slots[i], r.circuit.shared, r.seats[i].source);
  }

  /** What the entry passes on goes down the leg... */
  lemma LegsAreTold(r: Route, i: nat)
    requires Agreement(r) && Honest(r, i) && r.circuit.slots[i].rec.live && r.circuit.slots[i].bwd != []
    ensures MoveOn(r, Middle(ToEntry(i))).seats[i].source.down == r.seats[i].source.down + [r.circuit.slots[i].bwd[0]]
  {
    hide Inv, SeatInv, Next;
    FramesReturn(r.circuit, i);
  }

  /** ... and so does every grant. */
  lemma LegsAreGranted(r: Route, i: nat, n: nat)
    requires Agreement(r) && Honest(r, i) && r.circuit.slots[i].rec.live
    requires 1 <= n <= r.circuit.slots[i].leg.wanted && n <= r.circuit.shared.available
    ensures MoveOn(r, Middle(GrantLeg(i, n))).seats[i].source.down == r.seats[i].source.down + [CircuitCredit(n)]
  {
    hide Inv, SeatInv, Next;
    GrantsHappen(r.circuit, i, n);
  }

  /** What the application and the timers of an honest source do has its effect. */
  lemma SourcesAct(r: Route, i: nat, act: Act)
    requires Agreement(r) && Honest(r, i) && Enabled(r.seats[i].source.e, act)
    ensures Effects.ActTakesEffect(r.seats[i].source.e, act, MoveOn(r, Acts(i, act)).seats[i].source.e)
  {
    hide Inv, LegInv, Bounded, Perform, Window, Enabled, Effects.ActTakesEffect;
    var s, p := r.circuit.slots[i], r.seats[i].source;
    var rec, leg := EntryRecord(s, r.seats[i]), EntryLeg(s, r.seats[i]);
    BoundedOf(r, i);
    ActAgrees(rec, leg, p, act);
    ReadsWhenActive(p.e);
    if p.e.phase == Active {
      SourceWindow(rec, leg, p);
    }
    Effects.SourceActs(p, act);
  }

  lemma SourcesFlush(r: Route, i: nat)
    requires Agreement(r) && Honest(r, i)
    ensures MoveOn(r, Flushes(i)).seats[i].source.circuitReturn == 0
  {
    hide Inv, LegInv, Bounded, ReturnCircuit;
    var s, p := r.circuit.slots[i], r.seats[i].source;
    BoundedOf(r, i);
    FlushAgrees(EntryRecord(s, r.seats[i]), EntryLeg(s, r.seats[i]), p);
    Effects.ReturnsInBatches(p, 0, true);
  }

  lemma SourceWindow(rec: Record, leg: PoolLeg.Leg, p: Source)
    requires LegInv(rec, leg, p) && p.e.phase == Active
    ensures Window(p.e.rx)
  {
    hide Clean, Credits, Ends, Dialogue, Window;
  }
}
