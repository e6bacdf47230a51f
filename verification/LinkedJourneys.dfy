/**
 Honest sources beside dishonest ones, with the shared link behind the send scheduler: the
 runs of `HonestRuns` and `LinkedRuns` in one.
 */
module LinkedJourneys {
  import opened Options
  import opened Frames
  import opened Endpoint
  import opened SharedCircuit
  import opened SourceLeg
  import opened CircuitRuns
  import opened HonestRuns
  import Queues = SendQueues
  import LinkedRuns
  import Delivery
  import Endings

  /** The route, the scheduler with its history, and how many of the selected cells have
      reached the destination. */
  datatype LinkedRoute = LinkedRoute(route: Route, queue: Queues.History, arrived: nat)

  const FIRST: LinkedRoute := LinkedRoute(START, Queues.START, 0)

  datatype Turn = Moving(move: Move) | Select | Arrival(admit: bool)

  /** The circuit and its scheduler, without the honest legs. */
  function WithoutLegs(j: LinkedRoute): LinkedRuns.Joint
  {
    LinkedRuns.Joint(j.route.circuit, j.queue, j.arrived)
  }

  /** The step of the circuit that a move is, if it reaches the circuit at all. */
  function StepOf(r: Route, move: Move): Option<Step>
  {
    match move
    case Middle(step) => if step.Arrive? && Honest(r, step.i) then None else Some(step)
    case Stranger => Some(Activate)
    case Up(i) =>
      if Honest(r, i) && r.seats[i].source.up != [] && r.circuit.slots[i].rec.live
      then Some(Arrive(i, r.seats[i].source.up[0], false)) else None
    case _ => None
  }

  /** What the entry hands to the scheduler during a move. */
  function Emitted(r: Route, move: Move): seq<nat>
  {
    var step := StepOf(r, move);
    if step.Some? then LinkedRuns.Emitted(r.circuit, step.value) else []
  }

  predicate IsDelivery(move: Move)
  {
    move.Middle? && LinkedRuns.IsDelivery(move.step)
  }

  ghost predicate LinkedStep(j: LinkedRoute, turn: Turn, j': LinkedRoute)
  {
    match turn
    case Moving(move) =>
      && !IsDelivery(move)
      && j' == LinkedRoute(MoveOn(j.route, move), LinkedRuns.AcceptAll(j.queue, Emitted(j.route, move)), j.arrived)
    case Select =>
      Queues.Formed(j.queue.line) && Queues.Step(j.queue, Queues.Select, j'.queue) && j' == j.(queue := j'.queue)
    case Arrival(admit) =>
      && j.arrived < |j.queue.selected| && j.queue.selected[j.arrived] < |j.queue.accepted|
      && var id := j.queue.accepted[j.queue.selected[j.arrived]];
         j' == LinkedRoute(MoveOn(j.route, Middle(LinkedRuns.Landing(id, admit))), j.queue, j.arrived + 1)
  }

  ghost predicate LinkedRun(run: seq<LinkedRoute>, turns: seq<Turn>)
  {
    && |run| == |turns| + 1 && run[0] == FIRST
    && forall n :: 0 <= n < |turns| ==> LinkedStep(run[n], turns[n], run[n + 1])
  }

  /** A move does to the circuit what its step does. */
  lemma MoveIsStep(r: Route, move: Move)
    requires Agreement(r)
    ensures var step := StepOf(r, move);
      MoveOn(r, move).circuit == if step.Some? then Next(r.circuit, step.value).0 else r.circuit
  {
    hide Inv, LegInv, FromSource, CloseLeg, Next;
    match move
    case Middle(step) =>
    case Stranger =>
    case Up(i) => if StepOf(r, move).Some? { UpIsArrive(r, i); }
    case _ =>
  }

  /** An honest frame is accepted, so that its arrival is one of the circuit's. */
  lemma UpIsArrive(r: Route, i: nat)
    requires Agreement(r) && Honest(r, i) && r.seats[i].source.up != [] && r.circuit.slots[i].rec.live
    ensures UpMove(r, i).circuit == Next(r.circuit, Arrive(i, r.seats[i].source.up[0], false)).0
  {
    hide Inv, LegInv, SlotInv, View, FromSource, CloseLeg;
    ViewOf(r.circuit, i);
    assert SeatInv(r.circuit.slots[i], r.seats[i]);
    HonestAccepted(r.circuit.slots[i], r.circuit.shared, r.seats[i].source);
  }

  lemma ArrivalIsStep(r: Route, id: nat, admit: bool)
    ensures MoveOn(r, Middle(LinkedRuns.Landing(id, admit))).circuit == Next(r.circuit, LinkedRuns.Landing(id, admit)).0
  {
    hide Next;
  }

  /** Whatever the legs do, the circuit and the scheduler make a turn of `LinkedRuns`, or
      none. */
  lemma TurnLinked(j: LinkedRoute, turn: Turn, j': LinkedRoute)
    requires Agreement(j.route) && LinkedRuns.Linked(WithoutLegs(j)) && LinkedStep(j, turn, j')
    ensures LinkedRuns.Linked(WithoutLegs(j'))
  {
    hide Agreement, LinkedRuns.Linked, Next, MoveOn, StepOf, LinkedRuns.Emitted;
    match turn
    case Moving(move) =>
      MoveIsStep(j.route, move);
      StepDelivers(j.route, move);
      var step := StepOf(j.route, move);
      if step.Some? {
        LinkedRuns.WorkKeeps(WithoutLegs(j), step.value, WithoutLegs(j'));
      }
    case Select =>
      LinkedRuns.SelectKeeps(WithoutLegs(j), WithoutLegs(j'));
    case Arrival(admit) =>
      var id := j.queue.accepted[j.queue.selected[j.arrived]];
      ArrivalIsStep(j.route, id, admit);
      LinkedRuns.ArrivalKeeps(WithoutLegs(j), admit, WithoutLegs(j'));
  }

  lemma StepDelivers(r: Route, move: Move)
    requires !IsDelivery(move)
    ensures StepOf(r, move).Some? ==> !LinkedRuns.IsDelivery(StepOf(r, move).value)
  {
  }

  /** A run behind the scheduler is a run of `HonestRuns`. */
  lemma {:induction false} LinkedRunIsJourney(run: seq<LinkedRoute>, turns: seq<Turn>, n: nat) returns (moves: seq<Move>)
    requires LinkedRun(run, turns) && n <= |turns|
    ensures run[n].route == Journey(moves)
  {
    hide MoveOn, Emitted, LinkedRuns.Landing;
    if n == 0 {
      moves := [];
    } else {
      var before := LinkedRunIsJourney(run, turns, n - 1);
      var j := run[n - 1];
      assert LinkedStep(j, turns[n - 1], run[n]);
      match turns[n - 1]
      case Moving(move) =>
        moves := before + [move];
      case Select =>
        moves := before;
      case Arrival(admit) =>
        moves := before + [Middle(LinkedRuns.Landing(j.queue.accepted[j.queue.selected[j.arrived]], admit))];
    }
  }

  /** ... and the scheduler goes with its circuit. */
  lemma {:induction false} LinkedRunLinked(run: seq<LinkedRoute>, turns: seq<Turn>, n: nat)
    requires LinkedRun(run, turns) && n <= |turns|
    ensures LinkedRuns.Linked(WithoutLegs(run[n]))
  {
    hide LinkedRuns.Linked, LinkedStep, Inv, Queues.Sound, Journey;
    if n == 0 {
      InitialKeeps(START.circuit);
      Queues.StartSound();
      LinkedRuns.NothingLinked(WithoutLegs(FIRST));
    } else {
      LinkedRunLinked(run, turns, n - 1);
      var moves := LinkedRunIsJourney(run, turns, n - 1);
      JourneyAgrees(moves);
      TurnLinked(run[n - 1], turns[n - 1], run[n]);
    }
  }

  /** With the shared link behind the scheduler, in every run: what arrives next can be
      taken, no frame of an honest leg or on the shared link is refused, entry and source of
      every live honest leg agree on all credit, and readers see prefixes. */
  lemma {:induction false} HonestBehindScheduler(run: seq<LinkedRoute>, turns: seq<Turn>, n: nat)
    requires LinkedRun(run, turns) && n <= |turns|
    ensures LinkedRuns.ReadyToLand(WithoutLegs(run[n]))
    ensures var r := run[n].route;
      && !r.rejected && !r.circuit.failed && Conserved(r.circuit.slots, r.circuit.shared)
      && |r.seats| == |r.circuit.slots|
      && forall i: nat :: Honest(r, i) && r.circuit.slots[i].rec.live && r.seats[i].source.e.phase == Active ==>
        Matched(r.circuit.slots[i], r.seats[i].source)
    ensures var r := run[n].route;
      forall i: nat :: Honest(r, i) ==>
        && Delivery.GivenPrefixes(r.seats[i].source.e, r.circuit.slots[i].dst)
        && Endings.AllEndsReach(r.circuit.slots[i], r.seats[i].source)
  {
    hide LinkedRuns.Linked, LinkedRuns.ReadyToLand, Journey, Matched, Conserved, Delivery.GivenPrefixes,
         Endings.AllEndsReach;
    var moves := LinkedRunIsJourney(run, turns, n);
    LinkedRunLinked(run, turns, n);
    HonestRunsAreClean(moves);
    Delivery.ReadersSeePrefixes(moves);
    Endings.EveryEndReaches(moves);
    LinkedRuns.NextLands(WithoutLegs(run[n]));
  }
}
