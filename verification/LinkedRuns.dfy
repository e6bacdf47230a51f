/**
 A shared circuit whose entry sends through the scheduler of `SendQueues`: what the entry
 puts on the shared link waits in the scheduler's line, and what the scheduler has selected
 arrives at the destination in that order.  Nothing else is assumed of the link.
 */
module LinkedRuns {
  import opened Frames
  import opened Endpoint
  import opened SharedCircuit
  import opened CircuitRuns
  import Queues = SendQueues

  /** The circuit, the scheduler with its history, and how many of the selected cells have
      reached the destination. */
  datatype Joint = Joint(circuit: Circuit, queue: Queues.History, arrived: nat)

  const FIRST: Joint := Joint(INITIAL, Queues.START, 0)

  /** A step of the circuit that is no delivery at the destination; the scheduler selects a
      cell; the oldest selected cell arrives. */
  datatype Turn = Work(step: Step) | Select | Arrival(admit: bool)

  predicate IsDelivery(step: Step)
  {
    step.ToDestination? || step.CircuitToDestination?
  }

  /** The stream a step concerns. */
  function Site(step: Step, n: nat): nat
  {
    match step
    case Activate => n
    case Arrive(i, _, _) => i
    case Close(i) => i
    case GrantLeg(i, _) => i
    case ToEntry(i) => i
    case ToDestination(i, _) => i
    case GrantStream(i, _) => i
    case Reclaim(i) => i
    case Application(i, _) => i
    case _ => n
  }

  /** The frames of stream i on their way to the destination. */
  function Waiting(c: Circuit, i: nat): nat
  {
    if i < |c.slots| then |c.slots[i].fwd| else 0
  }

  /** The streams on which the entry sends a cell in this step: the circuit's own for a
      return of credit, then the stream of the step. */
  function Emitted(c: Circuit, step: Step): seq<nat>
  {
    var c', i := Next(c, step).0, Site(step, |c.slots|);
    (if |c'.shared.toDst| > |c.shared.toDst| then [CIRCUIT_STREAM_ID] else [])
    + (if Waiting(c', i) > Waiting(c, i) then [Id(i)] else [])
  }

  function AcceptOne(h: Queues.History, id: nat): Queues.History
  {
    Queues.History(Queues.Enqueued(h.line, id, |h.accepted|), h.accepted + [id], h.selected)
  }

  function AcceptAll(h: Queues.History, ids: seq<nat>): Queues.History
  {
    if ids == [] then h else AcceptOne(AcceptAll(h, ids[..|ids| - 1]), ids[|ids| - 1])
  }

  /** The delivery step that a cell of this stream is. */
  function Landing(id: nat, admit: bool): Step
  {
    if id == CIRCUIT_STREAM_ID || id < 2 then CircuitToDestination else ToDestination((id - 2) / 2, admit)
  }

  ghost predicate JointStep(j: Joint, turn: Turn, j': Joint)
  {
    match turn
    case Work(step) =>
      && !IsDelivery(step)
      && j' == Joint(Next(j.circuit, step).0, AcceptAll(j.queue, Emitted(j.circuit, step)), j.arrived)
    case Select =>
      Queues.Formed(j.queue.line) && Queues.Step(j.queue, Queues.Select, j'.queue) && j' == j.(queue := j'.queue)
    case Arrival(admit) =>
      && j.arrived < |j.queue.selected| && j.queue.selected[j.arrived] < |j.queue.accepted|
      && var id := j.queue.accepted[j.queue.selected[j.arrived]];
         j' == Joint(Next(j.circuit, Landing(id, admit)).0, j.queue, j.arrived + 1)
  }

  // ---- picks of a longer selection ----

  lemma {:induction false} PicksPrefix(accepted: seq<nat>, s: seq<nat>, m: nat, id: nat)
    requires m <= |s|
    ensures Queues.Picks(accepted, s[..m], id) <= Queues.Picks(accepted, s, id)
    decreases |s|
  {
    if m < |s| {
      PicksPrefix(accepted, s[..|s| - 1], m, id);
      assert s[..|s| - 1][..m] == s[..m];
    } else {
      assert s[..m] == s;
    }
  }

  lemma {:induction false} PicksMember(accepted: seq<nat>, s: seq<nat>, id: nat, x: nat)
    ensures x in Queues.Picks(accepted, s, id) <==> x in s && x < |accepted| && accepted[x] == id
  {
    if s != [] {
      var front, last := s[..|s| - 1], s[|s| - 1];
      PicksMember(accepted, front, id, x);
      assert s == front + [last];
    }
  }

  lemma PicksNext(accepted: seq<nat>, s: seq<nat>, m: nat, id: nat)
    requires m < |s| && s[m] < |accepted|
    ensures Queues.Picks(accepted, s[..m + 1], id)
         == Queues.Picks(accepted, s[..m], id) + if accepted[s[m]] == id then [s[m]] else []
  {
    assert s[..m + 1][..m] == s[..m];
  }

  /** The first job accepted for a stream. */
  lemma {:induction false} AcceptedFirst(accepted: seq<nat>, id: nat)
    requires Queues.Accepted(accepted, id) != []
    ensures Queues.IsFirst(accepted, Queues.Accepted(accepted, id)[0])
    ensures accepted[Queues.Accepted(accepted, id)[0]] == id
  {
    var n := |accepted| - 1;
    var front := accepted[..n];
    if Queues.Accepted(front, id) != [] {
      AcceptedFirst(front, id);
      var f := Queues.Accepted(front, id)[0];
      assert forall k :: 0 <= k <= f ==> accepted[k] == front[k];
    } else {
      forall k | 0 <= k < n
        ensures accepted[k] != id
      {
        NoneAccepted(front, id, k);
      }
    }
  }

  lemma {:induction false} NoneAccepted(accepted: seq<nat>, id: nat, k: nat)
    requires Queues.Accepted(accepted, id) == [] && k < |accepted|
    ensures accepted[k] != id
  {
    var n := |accepted| - 1;
    if k < n {
      NoneAccepted(accepted[..n], id, k);
    }
  }

  // ---- what a step sends ----

  /** A handler of the entry or the destination that delivers nothing: it puts at most one
      frame on the stream's channel and one on the circuit's, and takes none. */
  predicate SendsOne(s: Slot, g: Shared, o: Outcome)
  {
    o.Done? ==>
      && |s.fwd| <= |o.slot.fwd| <= |s.fwd| + 1
      && (o.slot.dst.phase == Unopened <==> s.dst.phase == Unopened)
      && |g.toDst| <= |o.shared.toDst| <= |g.toDst| + 1
  }

  lemma EntrySendsOne(s: Slot, g: Shared, f: Frame, tooSoon: bool, n: nat)
    ensures SendsOne(s, g, FromSource(s, g, f, tooSoon))
    ensures SendsOne(s, g, CloseLeg(s, g)) && SendsOne(s, g, Grant(s, g, n))
    ensures s.bwd != [] ==> SendsOne(s, g, FromDestination(s, g))
  {
  }

  lemma DestinationSendsOne(s: Slot, g: Shared, n: nat, act: Act)
    ensures SendsOne(s, g, DstGrant(s, g, n)) && SendsOne(s, g, DstRelease(s, g))
    ensures SendsOne(s, g, DstAct(s, g, act))
  {
    hide Drain, ReadNext;
  }

  /** What a step that delivers nothing does to the channels towards the destination. */
  ghost predicate Grows(c: Circuit, c': Circuit, i: nat)
  {
    && |c.slots| <= |c'.slots| <= |c.slots| + 1
    && (|c'.slots| > |c.slots| ==> i == |c.slots| && c'.slots[i] == ACTIVATED && 2 * |c'.slots| < CIRCUIT_STREAM_ID)
    && (forall k :: 0 <= k < |c.slots| && k != i ==> c'.slots[k] == c.slots[k])
    && (i < |c.slots| ==>
          && |c.slots[i].fwd| <= |c'.slots[i].fwd| <= |c.slots[i].fwd| + 1
          && (c'.slots[i].dst.phase == Unopened <==> c.slots[i].dst.phase == Unopened))
    && |c.shared.toDst| <= |c'.shared.toDst| <= |c.shared.toDst| + 1
  }

  lemma CommitGrows(c: Circuit, i: nat, o: Outcome)
    requires i < |c.slots| && SendsOne(c.slots[i], c.shared, o)
    ensures Grows(c, Commit(c, i, o).0, i)
  {
  }

  lemma SharedGrows(c: Circuit, step: Step)
    requires step.CircuitToEntry? || step.FlushEntry? || step.FlushDestination?
    ensures Grows(c, Next(c, step).0, Site(step, |c.slots|))
  {
  }

  lemma WorkGrows(c: Circuit, step: Step)
    requires !IsDelivery(step)
    ensures Grows(c, Next(c, step).0, Site(step, |c.slots|))
  {
    hide FromSource, CloseLeg, Grant, FromDestination, DstGrant, DstRelease, DstAct, SendsOne, Commit, LiveLegs, FromEntry;
    var i := Site(step, |c.slots|);
    if c.failed {
      StandsStill(c, i);
    } else if step.CircuitToEntry? || step.FlushEntry? || step.FlushDestination? {
      SharedGrows(c, step);
    } else if i < |c.slots| {
      SlotGrows(c, step);
    } else {
      StandsStill(c, i);
    }
  }

  lemma StandsStill(c: Circuit, i: nat)
    ensures Grows(c, c, i)
  {
  }

  lemma SlotGrows(c: Circuit, step: Step)
    requires !IsDelivery(step) && !c.failed && Site(step, |c.slots|) < |c.slots|
    ensures Grows(c, Next(c, step).0, Site(step, |c.slots|))
  {
    hide FromSource, CloseLeg, Grant, FromDestination, DstGrant, DstRelease, DstAct, SendsOne, Commit, Grows;
    var i := Site(step, |c.slots|);
    var s, g := c.slots[i], c.shared;
    StandsStill(c, i);
    match step
    case Arrive(_, f, tooSoon) =>
      EntrySendsOne(s, g, f, tooSoon, 0);
      var o := FromSource(s, g, f, tooSoon);
      CommitGrows(c, i, if o.Done? then o else CloseLeg(s, g));
    case Close(_) =>
      EntrySendsOne(s, g, Open, false, 0);
      CommitGrows(c, i, CloseLeg(s, g));
    case GrantLeg(_, n) =>
      EntrySendsOne(s, g, Open, false, n);
      CommitGrows(c, i, Grant(s, g, n));
    case ToEntry(_) =>
      if s.bwd != [] {
        EntrySendsOne(s, g, Open, false, 0);
        CommitGrows(c, i, FromDestination(s, g));
      }
    case GrantStream(_, n) =>
      DestinationSendsOne(s, g, n, Idle);
      CommitGrows(c, i, DstGrant(s, g, n));
    case Reclaim(_) =>
      DestinationSendsOne(s, g, 0, Idle);
      CommitGrows(c, i, DstRelease(s, g));
    case Application(_, act) =>
      DestinationSendsOne(s, g, 0, act);
      CommitGrows(c, i, DstAct(s, g, act));
  }

  // ---- accepting what was sent ----

  lemma AcceptedStep(accepted: seq<nat>, x: nat, id: nat)
    ensures Queues.Accepted(accepted + [x], id) == Queues.Accepted(accepted, id) + if x == id then [|accepted|] else []
  {
    assert (accepted + [x])[..|accepted|] == accepted;
  }

  /** More jobs extend what was accepted for each stream. */
  lemma {:induction false} AcceptedMore(accepted: seq<nat>, ids: seq<nat>, id: nat)
    ensures var before, after := Queues.Accepted(accepted, id), Queues.Accepted(accepted + ids, id);
            && before <= after && |after| == |before| + multiset(ids)[id]
            && (before == [] && after != [] ==> after[0] >= |accepted|)
  {
    hide Queues.Accepted;
    if ids == [] {
      assert accepted + ids == accepted;
    } else {
      var front, last := ids[..|ids| - 1], ids[|ids| - 1];
      AcceptedMore(accepted, front, id);
      assert ids == front + [last];
      AcceptedStep(accepted + front, last, id);
      assert accepted + ids == accepted + front + [last];
    }
  }

  lemma {:induction false} AcceptAllSound(h: Queues.History, ids: seq<nat>)
    requires Queues.Sound(h)
    ensures var h' := AcceptAll(h, ids);
            Queues.Sound(h') && h'.accepted == h.accepted + ids && h'.selected == h.selected
  {
    hide Queues.Sound;
    if ids != [] {
      var front := ids[..|ids| - 1];
      AcceptAllSound(h, front);
      AcceptOneSound(AcceptAll(h, front), ids[|ids| - 1]);
      assert ids == front + [ids[|ids| - 1]];
    }
  }

  lemma AcceptOneSound(h: Queues.History, id: nat)
    requires Queues.Sound(h)
    ensures Queues.Sound(AcceptOne(h, id))
  {
    hide Queues.InOrder, Queues.Creation;
    Queues.StepSound(h, Queues.Accept(id), AcceptOne(h, id));
  }

  // ---- circuit and scheduler together ----

  /** n cells of this stream were sent and have not arrived. */
  ghost predicate InTransit(accepted: seq<nat>, landed: seq<nat>, id: nat, n: nat)
  {
    |Queues.Accepted(accepted, id)| == |Queues.Picks(accepted, landed, id)| + n
  }

  /** The channel of a stream is what was sent and has not arrived, and the destination has
      not seen it opened exactly as long as nothing of it has arrived. */
  ghost predicate StreamLinked(accepted: seq<nat>, landed: seq<nat>, i: nat, s: Slot)
  {
    && InTransit(accepted, landed, Id(i), |s.fwd|)
    && (s.dst.phase == Unopened <==> Queues.IsFresh(accepted, landed, Id(i)))
    && Queues.Accepted(accepted, Id(i)) != []
  }

  ghost predicate AllLinked(accepted: seq<nat>, landed: seq<nat>, slots: seq<Slot>)
  {
    forall i :: 0 <= i < |slots| ==> StreamLinked(accepted, landed, i, slots[i])
  }

  /** Stream k sent its first cell after stream i did, for i < k. */
  ghost predicate BornBefore(accepted: seq<nat>, i: nat, k: nat)
  {
    && Queues.Accepted(accepted, Id(i)) != [] && Queues.Accepted(accepted, Id(k)) != []
    && Queues.Accepted(accepted, Id(i))[0] < Queues.Accepted(accepted, Id(k))[0]
  }

  ghost predicate BornInOrder(accepted: seq<nat>, n: nat)
  {
    forall i, k :: 0 <= i < k < n ==> BornBefore(accepted, i, k)
  }

  predicate IsStream(id: nat, n: nat)
  {
    id == CIRCUIT_STREAM_ID || (2 <= id <= 2 * n && id % 2 == 0)
  }

  ghost predicate Named(accepted: seq<nat>, n: nat)
  {
    forall k :: 0 <= k < |accepted| ==> IsStream(accepted[k], n)
  }

  ghost function Landed(j: Joint): seq<nat>
    requires j.arrived <= |j.queue.selected|
  {
    j.queue.selected[..j.arrived]
  }

  ghost predicate Linked(j: Joint)
  {
    && Inv(j.circuit) && Queues.Sound(j.queue) && j.arrived <= |j.queue.selected|
    && 2 * |j.circuit.slots| < CIRCUIT_STREAM_ID
    && Named(j.queue.accepted, |j.circuit.slots|)
    && AllLinked(j.queue.accepted, Landed(j), j.circuit.slots)
    && BornInOrder(j.queue.accepted, |j.circuit.slots|)
    && InTransit(j.queue.accepted, Landed(j), CIRCUIT_STREAM_ID, |j.circuit.shared.toDst|)
  }

  // ---- a step that delivers nothing ----

  lemma StreamLinkedMore(accepted: seq<nat>, ids: seq<nat>, landed: seq<nat>, i: nat, s: Slot, s': Slot)
    requires StreamLinked(accepted, landed, i, s) && Queues.AllBelow(landed, |accepted|)
    requires s'.dst.phase == Unopened <==> s.dst.phase == Unopened
    requires |s'.fwd| == |s.fwd| + multiset(ids)[Id(i)]
    ensures StreamLinked(accepted + ids, landed, i, s')
  {
    AcceptedMore(accepted, ids, Id(i));
    Queues.PicksKept(accepted, ids, landed, Id(i));
  }

  lemma {:induction false} PicksNone(accepted: seq<nat>, s: seq<nat>, id: nat)
    requires forall k :: 0 <= k < |accepted| ==> accepted[k] != id
    ensures Queues.Picks(accepted, s, id) == []
  {
    if s != [] {
      PicksNone(accepted, s[..|s| - 1], id);
    }
  }

  lemma {:induction false} NeverAccepted(accepted: seq<nat>, id: nat)
    requires forall k :: 0 <= k < |accepted| ==> accepted[k] != id
    ensures Queues.Accepted(accepted, id) == []
  {
    if accepted != [] {
      var front := accepted[..|accepted| - 1];
      assert forall k :: 0 <= k < |front| ==> front[k] == accepted[k];
      NeverAccepted(front, id);
    }
  }

  lemma NewStreamLinked(accepted: seq<nat>, ids: seq<nat>, landed: seq<nat>, n: nat, s: Slot)
    requires Named(accepted, n) && Id(n) < CIRCUIT_STREAM_ID && Queues.AllBelow(landed, |accepted|)
    requires multiset(ids)[Id(n)] == 1 && |s.fwd| == 1 && s.dst.phase == Unopened
    ensures StreamLinked(accepted + ids, landed, n, s)
    ensures Queues.Accepted(accepted + ids, Id(n)) != [] && Queues.Accepted(accepted + ids, Id(n))[0] >= |accepted|
  {
    forall k | 0 <= k < |accepted|
      ensures accepted[k] != Id(n)
    {
      assert IsStream(accepted[k], n);
    }
    NeverAccepted(accepted, Id(n));
    PicksNone(accepted, landed, Id(n));
    AcceptedMore(accepted, ids, Id(n));
    Queues.PicksKept(accepted, ids, landed, Id(n));
  }

  lemma FirstBelow(accepted: seq<nat>, id: nat)
    requires Queues.Accepted(accepted, id) != []
    ensures Queues.Accepted(accepted, id)[0] < |accepted|
  {
    Queues.AcceptedBelong(accepted, id, Queues.Accepted(accepted, id)[0]);
  }

  lemma BornMore(accepted: seq<nat>, ids: seq<nat>, i: nat, k: nat)
    requires BornBefore(accepted, i, k)
    ensures BornBefore(accepted + ids, i, k)
  {
    AcceptedMore(accepted, ids, Id(i));
    AcceptedMore(accepted, ids, Id(k));
  }

  lemma BornLast(accepted: seq<nat>, ids: seq<nat>, i: nat, n: nat)
    requires Queues.Accepted(accepted, Id(i)) != []
    requires Queues.Accepted(accepted + ids, Id(n)) != [] && Queues.Accepted(accepted + ids, Id(n))[0] >= |accepted|
    ensures BornBefore(accepted + ids, i, n)
  {
    AcceptedMore(accepted, ids, Id(i));
    FirstBelow(accepted, Id(i));
  }

  /** How the channels grow, seen from one stream. */
  lemma WaitingGrows(c: Circuit, step: Step, i: nat)
    requires !IsDelivery(step) && 2 * |c.slots| < CIRCUIT_STREAM_ID
    ensures var c', k := Next(c, step).0, Site(step, |c.slots|);
            && (i != k && i < |c'.slots| ==> Waiting(c', i) == Waiting(c, i))
            && Waiting(c, k) <= Waiting(c', k) <= Waiting(c, k) + 1
            && (Waiting(c', k) > Waiting(c, k) ==> k < |c'.slots|)
            && 2 * |c'.slots| < CIRCUIT_STREAM_ID
            && |c.shared.toDst| <= |c'.shared.toDst| <= |c.shared.toDst| + 1
  {
    hide Next;
    WorkGrows(c, step);
  }

  /** What a step emits, counted by stream. */
  lemma EmittedCounts(c: Circuit, step: Step, i: nat)
    requires !IsDelivery(step) && 2 * |c.slots| < CIRCUIT_STREAM_ID
    ensures var c', ids := Next(c, step).0, Emitted(c, step);
            && (i < |c'.slots| ==> Waiting(c', i) == Waiting(c, i) + multiset(ids)[Id(i)])
            && |c'.shared.toDst| == |c.shared.toDst| + multiset(ids)[CIRCUIT_STREAM_ID]
  {
    hide Next, Site, Waiting;
    WaitingGrows(c, step, i);
    assert Id(i) == Id(Site(step, |c.slots|)) <==> i == Site(step, |c.slots|);
  }

  lemma EmittedNamed(c: Circuit, step: Step)
    requires !IsDelivery(step) && 2 * |c.slots| < CIRCUIT_STREAM_ID
    ensures Named(Emitted(c, step), |Next(c, step).0.slots|)
  {
    hide Next, Site, Waiting;
    WaitingGrows(c, step, 0);
  }

  lemma WorkLinks(j: Joint, step: Step)
    requires Linked(j) && !IsDelivery(step)
    ensures var c', ids := Next(j.circuit, step).0, Emitted(j.circuit, step);
            && AllLinked(j.queue.accepted + ids, Landed(j), c'.slots)
            && BornInOrder(j.queue.accepted + ids, |c'.slots|)
  {
    hide Next, Emitted, Inv, Queues.Sound, StreamLinked, BornBefore, InTransit, Queues.Accepted, Named, Queues.AllBelow;
    var c, c', ids := j.circuit, Next(j.circuit, step).0, Emitted(j.circuit, step);
    var accepted, landed := j.queue.accepted, Landed(j);
    WorkSize(c, step);
    LandedBelow(j);
    forall i | 0 <= i < |c.slots|
      ensures StreamLinked(accepted + ids, landed, i, c'.slots[i])
    {
      EmittedCounts(c, step, i);
      PhaseKept(c, step, i);
      StreamLinkedMore(accepted, ids, landed, i, c.slots[i], c'.slots[i]);
    }
    forall i, k | 0 <= i < k < |c.slots|
      ensures BornBefore(accepted + ids, i, k)
    {
      BornMore(accepted, ids, i, k);
    }
    if |c'.slots| > |c.slots| {
      var n := |c.slots|;
      EmittedCounts(c, step, n);
      NewSlot(c, step);
      NewStreamLinked(accepted, ids, landed, n, c'.slots[n]);
      forall i | 0 <= i < n
        ensures BornBefore(accepted + ids, i, n)
      {
        assert StreamLinked(accepted, landed, i, c.slots[i]);
        HasBegun(accepted, landed, i, c.slots[i]);
        BornLast(accepted, ids, i, n);
      }
    }
  }

  lemma PhaseKept(c: Circuit, step: Step, i: nat)
    requires !IsDelivery(step) && i < |c.slots|
    ensures var c' := Next(c, step).0;
            i < |c'.slots| && (c'.slots[i].dst.phase == Unopened <==> c.slots[i].dst.phase == Unopened)
  {
    WorkGrows(c, step);
    hide Next;
  }

  lemma NewSlot(c: Circuit, step: Step)
    requires !IsDelivery(step) && |Next(c, step).0.slots| > |c.slots|
    ensures Next(c, step).0.slots[|c.slots|] == ACTIVATED && |Next(c, step).0.slots| == |c.slots| + 1
  {
    WorkGrows(c, step);
    hide Next;
  }

  lemma HasBegun(accepted: seq<nat>, landed: seq<nat>, i: nat, s: Slot)
    requires StreamLinked(accepted, landed, i, s)
    ensures Queues.Accepted(accepted, Id(i)) != []
  {
  }

  lemma LandedBelow(j: Joint)
    requires Queues.Sound(j.queue) && j.arrived <= |j.queue.selected|
    ensures Queues.AllBelow(Landed(j), |j.queue.accepted|)
  {
    hide Queues.Creation, Queues.Formed;
  }

  lemma NamedMore(accepted: seq<nat>, ids: seq<nat>, n: nat, n': nat)
    requires Named(accepted, n) && Named(ids, n') && n <= n'
    ensures Named(accepted + ids, n')
  {
    forall k | 0 <= k < |accepted + ids|
      ensures IsStream((accepted + ids)[k], n')
    {
      if k < |accepted| {
        assert IsStream(accepted[k], n);
      } else {
        assert IsStream(ids[k - |accepted|], n');
      }
    }
  }

  lemma WorkKeeps(j: Joint, step: Step, j': Joint)
    requires Linked(j) && JointStep(j, Work(step), j')
    ensures Linked(j')
  {
    hide Inv, Queues.Sound, AllLinked, BornInOrder, Named, InTransit, Next, Emitted, Grows;
    var ids := Emitted(j.circuit, step);
    StepKeeps(j.circuit, step);
    AcceptAllSound(j.queue, ids);
    WorkLinks(j, step);
    EmittedNamed(j.circuit, step);
    WorkSize(j.circuit, step);
    NamedMore(j.queue.accepted, ids, |j.circuit.slots|, |j'.circuit.slots|);
    EmittedCounts(j.circuit, step, 0);
    LandedBelow(j);
    TransitMore(j.queue.accepted, ids, Landed(j), CIRCUIT_STREAM_ID, |j.circuit.shared.toDst|);
  }

  lemma WorkSize(c: Circuit, step: Step)
    requires !IsDelivery(step) && 2 * |c.slots| < CIRCUIT_STREAM_ID
    ensures |c.slots| <= |Next(c, step).0.slots| <= |c.slots| + 1 && 2 * |Next(c, step).0.slots| < CIRCUIT_STREAM_ID
  {
    WorkGrows(c, step);
    hide Next;
  }

  lemma TransitMore(accepted: seq<nat>, ids: seq<nat>, landed: seq<nat>, id: nat, n: nat)
    requires InTransit(accepted, landed, id, n) && Queues.AllBelow(landed, |accepted|)
    ensures InTransit(accepted + ids, landed, id, n + multiset(ids)[id])
  {
    AcceptedMore(accepted, ids, id);
    Queues.PicksKept(accepted, ids, landed, id);
  }

  // ---- a selection ----

  lemma SelectKeeps(j: Joint, j': Joint)
    requires Linked(j) && JointStep(j, Select, j')
    ensures Linked(j')
  {
    hide Inv, AllLinked, BornInOrder, Named, InTransit, Queues.Formed, Queues.InOrder, Queues.Creation;
    Queues.StepSound(j.queue, Queues.Select, j'.queue);
    assert j'.queue.selected[..j.arrived] == j.queue.selected[..j.arrived];
  }

  // ---- an arrival ----

  /** The stream of the next cell to arrive has a frame under way. */
  lemma SomethingComes(h: Queues.History, m: nat, n: nat)
    requires Queues.Sound(h) && m < |h.selected| && h.selected[m] < |h.accepted|
    requires InTransit(h.accepted, h.selected[..m], h.accepted[h.selected[m]], n)
    ensures n > 0
  {
    var id := h.accepted[h.selected[m]];
    PicksNext(h.accepted, h.selected, m, id);
    PicksPrefix(h.accepted, h.selected, m + 1, id);
    assert Queues.Picks(h.accepted, h.selected, id) + Queues.Waiting(h.line, id) == Queues.Accepted(h.accepted, id);
  }

  /** The first cell to arrive of a stream is the first one accepted for it. */
  lemma ArrivesFirst(h: Queues.History, m: nat)
    requires Queues.Sound(h) && m < |h.selected| && h.selected[m] < |h.accepted|
    requires Queues.IsFresh(h.accepted, h.selected[..m], h.accepted[h.selected[m]])
    ensures var id := h.accepted[h.selected[m]];
            Queues.Accepted(h.accepted, id) != [] && Queues.Accepted(h.accepted, id)[0] == h.selected[m]
  {
    var id := h.accepted[h.selected[m]];
    PicksNext(h.accepted, h.selected, m, id);
    PicksPrefix(h.accepted, h.selected, m + 1, id);
    assert Queues.Picks(h.accepted, h.selected, id) + Queues.Waiting(h.line, id) == Queues.Accepted(h.accepted, id);
  }

  lemma WaitsLater(h: Queues.History, j: nat, id: nat)
    requires Queues.Sound(h) && j in h.selected && Queues.IsFirst(h.accepted, j)
    requires Queues.IsFresh(h.accepted, h.selected, id) && Queues.Waiting(h.line, id) != []
    ensures j < Queues.Waiting(h.line, id)[0]
  {
    hide Queues.IsFirst, Queues.IsFresh, Queues.InOrder, Queues.FreshSorted;
  }

  /** When the first cell of a stream arrives, every stream that was born before it has
      already sent one that arrived. */
  lemma OlderArrived(h: Queues.History, m: nat, older: nat)
    requires Queues.Sound(h) && m < |h.selected| && h.selected[m] < |h.accepted|
    requires Queues.IsFresh(h.accepted, h.selected[..m], h.accepted[h.selected[m]])
    requires Queues.Accepted(h.accepted, older) != [] && Queues.Accepted(h.accepted, older)[0] < h.selected[m]
    ensures !Queues.IsFresh(h.accepted, h.selected[..m], older)
  {
    var J, K := h.selected[m], Queues.Accepted(h.accepted, older)[0];
    ArrivesFirst(h, m);
    AcceptedFirst(h.accepted, h.accepted[J]);
    AcceptedFirst(h.accepted, older);
    assert Queues.Picks(h.accepted, h.selected, older) + Queues.Waiting(h.line, older) == Queues.Accepted(h.accepted, older);
    hide Queues.Accepted, Queues.IsFirst, Queues.Formed, Queues.FreshSorted;
    if Queues.Picks(h.accepted, h.selected, older) == [] {
      assert Queues.Waiting(h.line, older)[0] == K;
      WaitsLater(h, J, older);
    } else {
      assert K == Queues.Picks(h.accepted, h.selected, older)[0];
      PicksMember(h.accepted, h.selected, older, K);
      var p :| 0 <= p < |h.selected| && h.selected[p] == K;
      if p < m {
        assert h.selected[..m][p] == K;
        PicksMember(h.accepted, h.selected[..m], older, K);
      }
    }
  }

  /** What the link delivers next is deliverable: the circuit's own credit, or a frame of a
      stream that is open or whose turn to open it is. */
  lemma ArrivalDeliverable(j: Joint, i: nat)
    requires Linked(j) && j.arrived < |j.queue.selected| && j.queue.selected[j.arrived] < |j.queue.accepted|
    requires j.queue.accepted[j.queue.selected[j.arrived]] == Id(i) && i < |j.circuit.slots|
    ensures Deliverable(j.circuit, i)
  {
    var h, m, c := j.queue, j.arrived, j.circuit;
    assert StreamLinked(h.accepted, Landed(j), i, c.slots[i]);
    SomethingComes(h, m, |c.slots[i].fwd|);
    if c.slots[i].fwd[0].Open? {
      ViewOf(c, i);
      OpenIffUnopened(c.slots[i]);
      ArrivesFirst(h, m);
      forall k | 0 <= k < i
        ensures c.slots[k].dst.phase != Unopened
      {
        assert StreamLinked(h.accepted, Landed(j), k, c.slots[k]) && BornBefore(h.accepted, k, i);
        OlderArrived(h, m, Id(k));
      }
    }
  }

  lemma OpenIffUnopened(s: Slot)
    requires SlotInv(s) && s.fwd != []
    ensures s.fwd[0].Open? <==> s.dst.phase == Unopened
  {
  }

  /** What the arrival of a frame does to its stream's channel, and to no other. */
  ghost predicate Lands(c: Circuit, c': Circuit, i: nat)
  {
    && i < |c.slots| == |c'.slots|
    && (forall k :: 0 <= k < |c.slots| && k != i ==> c'.slots[k] == c.slots[k])
    && |c'.slots[i].fwd| == |c.slots[i].fwd| - 1 && c'.slots[i].dst.phase != Unopened
    && c'.shared.toDst == c.shared.toDst
  }

  lemma FromEntryPops(s: Slot, g: Shared, newest: bool, admit: bool)
    requires s.fwd != [] && FromEntry(s, g, newest, admit).Done?
    ensures var o := FromEntry(s, g, newest, admit);
            |o.slot.fwd| == |s.fwd| - 1 && o.shared.toDst == g.toDst
  {
    hide Accept, Drain;
  }

  lemma StreamLands(c: Circuit, i: nat, admit: bool)
    requires Inv(c) && Deliverable(c, i)
    ensures Inv(Next(c, ToDestination(i, admit)).0) && Lands(c, Next(c, ToDestination(i, admit)).0, i)
  {
    hide Inv, FromEntry, SlotInv, Balanced, View;
    var newest := Id(i) > c.lastStreamId;
    StepKeeps(c, ToDestination(i, admit));
    ViewOf(c, i);
    OpensAreNewest(c, i);
    FromEntrySound(c.slots[i], c.shared, newest, admit);
    FromEntryPhase(c.slots[i], c.shared, newest, admit);
    FromEntryPops(c.slots[i], c.shared, newest, admit);
    OpenIffUnopened(c.slots[i]);
  }

  lemma CreditLands(c: Circuit)
    requires Inv(c) && c.shared.toDst != []
    ensures var c' := Next(c, CircuitToDestination).0;
            Inv(c') && c'.slots == c.slots && |c'.shared.toDst| == |c.shared.toDst| - 1
  {
    hide SlotInv, Conserved;
    StepKeeps(c, CircuitToDestination);
  }

  lemma ArrivalCounts(h: Queues.History, m: nat, id: nat, n: nat)
    requires m < |h.selected| && h.selected[m] < |h.accepted| && InTransit(h.accepted, h.selected[..m], id, n)
    requires h.accepted[h.selected[m]] == id ==> n > 0
    ensures InTransit(h.accepted, h.selected[..m + 1], id, if h.accepted[h.selected[m]] == id then n - 1 else n)
    ensures Queues.IsFresh(h.accepted, h.selected[..m + 1], id) <==>
            Queues.IsFresh(h.accepted, h.selected[..m], id) && h.accepted[h.selected[m]] != id
  {
    PicksNext(h.accepted, h.selected, m, id);
  }

  lemma NextToLand(j: Joint)
    requires Linked(j) && j.arrived < |j.queue.selected|
    ensures j.queue.selected[j.arrived] < |j.queue.accepted|
    ensures IsStream(j.queue.accepted[j.queue.selected[j.arrived]], |j.circuit.slots|)
  {
    hide Queues.Creation, Queues.Formed, Inv;
    assert Queues.AllBelow(j.queue.selected, |j.queue.accepted|);
  }

  lemma CreditArrives(j: Joint, j': Joint)
    requires Linked(j) && j.arrived < |j.queue.selected| && j.queue.selected[j.arrived] < |j.queue.accepted|
    requires j.queue.accepted[j.queue.selected[j.arrived]] == CIRCUIT_STREAM_ID
    requires j' == Joint(Next(j.circuit, CircuitToDestination).0, j.queue, j.arrived + 1)
    ensures j.circuit.shared.toDst != [] && Linked(j')
  {
    var h, m := j.queue, j.arrived;
    hide Inv, Queues.Sound, Next, Named, BornInOrder, InTransit;
    SomethingComes(h, m, |j.circuit.shared.toDst|);
    CreditLands(j.circuit);
    ArrivalCounts(h, m, CIRCUIT_STREAM_ID, |j.circuit.shared.toDst|);
    forall i | 0 <= i < |j.circuit.slots|
      ensures StreamLinked(h.accepted, h.selected[..m + 1], i, j.circuit.slots[i])
    {
      assert StreamLinked(h.accepted, h.selected[..m], i, j.circuit.slots[i]);
      ArrivalCounts(h, m, Id(i), |j.circuit.slots[i].fwd|);
    }
  }

  lemma FrameArrives(j: Joint, i: nat, admit: bool, j': Joint)
    requires Linked(j) && j.arrived < |j.queue.selected| && j.queue.selected[j.arrived] < |j.queue.accepted|
    requires j.queue.accepted[j.queue.selected[j.arrived]] == Id(i) && i < |j.circuit.slots|
    requires j' == Joint(Next(j.circuit, ToDestination(i, admit)).0, j.queue, j.arrived + 1)
    ensures Deliverable(j.circuit, i) && Linked(j')
  {
    hide Inv, Queues.Sound, Next, Named, BornInOrder, InTransit, Deliverable;
    var h, m, c := j.queue, j.arrived, j.circuit;
    ArrivalDeliverable(j, i);
    StreamLands(c, i, admit);
    forall k | 0 <= k < |c.slots|
      ensures StreamLinked(h.accepted, h.selected[..m + 1], k, j'.circuit.slots[k])
    {
      assert StreamLinked(h.accepted, h.selected[..m], k, c.slots[k]);
      if k == i {
        SomethingComes(h, m, |c.slots[i].fwd|);
      }
      ArrivalCounts(h, m, Id(k), |c.slots[k].fwd|);
    }
    ArrivalCounts(h, m, CIRCUIT_STREAM_ID, |c.shared.toDst|);
  }

  lemma ArrivalKeeps(j: Joint, admit: bool, j': Joint)
    requires Linked(j) && JointStep(j, Arrival(admit), j')
    ensures Linked(j')
  {
    hide Linked, Next;
    NextToLand(j);
    var id := j.queue.accepted[j.queue.selected[j.arrived]];
    if id == CIRCUIT_STREAM_ID {
      CreditArrives(j, j');
    } else {
      FrameArrives(j, (id - 2) / 2, admit, j');
    }
  }

  // ---- whole runs ----

  ghost predicate JointRun(run: seq<Joint>, turns: seq<Turn>)
  {
    && |run| == |turns| + 1 && run[0] == FIRST
    && forall n :: 0 <= n < |turns| ==> JointStep(run[n], turns[n], run[n + 1])
  }

  lemma NothingLinked(j: Joint)
    requires Inv(j.circuit) && |j.circuit.slots| == 0 && |j.circuit.shared.toDst| == 0
    requires Queues.Sound(j.queue) && |j.queue.accepted| == 0 && j.arrived == 0
    ensures Linked(j)
  {
    hide Inv, Queues.Sound;
  }

  /** A circuit behind the scheduler runs as `CircuitRuns` says it does. */
  lemma {:induction false} JointRunLinked(run: seq<Joint>, turns: seq<Turn>, n: nat) returns (steps: seq<Step>)
    requires JointRun(run, turns) && n <= |turns|
    ensures Linked(run[n]) && run[n].circuit == Run(steps)
  {
    hide Linked, Next, Inv, Queues.Sound;
    if n == 0 {
      steps := [];
      InitialKeeps(FIRST.circuit);
      Queues.StartSound();
      NothingLinked(FIRST);
    } else {
      var before := JointRunLinked(run, turns, n - 1);
      assert JointStep(run[n - 1], turns[n - 1], run[n]);
      match turns[n - 1]
      case Work(step) =>
        WorkKeeps(run[n - 1], step, run[n]);
        steps := before + [step];
      case Select =>
        SelectKeeps(run[n - 1], run[n]);
        steps := before;
      case Arrival(admit) =>
        ArrivalKeeps(run[n - 1], admit, run[n]);
        var id := run[n - 1].queue.accepted[run[n - 1].queue.selected[run[n - 1].arrived]];
        steps := before + [Landing(id, admit)];
    }
  }

  /** The cell that arrives next belongs to a stream with a frame under way, which is one
      the destination takes: the circuit's own credit, a frame of an open stream, or the
      OPEN with the next id in turn. */
  ghost predicate ReadyToLand(j: Joint)
  {
    j.arrived < |j.queue.selected| ==>
      && j.queue.selected[j.arrived] < |j.queue.accepted|
      && var id := j.queue.accepted[j.queue.selected[j.arrived]];
         if id == CIRCUIT_STREAM_ID then j.circuit.shared.toDst != []
         else
           && id >= 2 && id == Id((id - 2) / 2) && Deliverable(j.circuit, (id - 2) / 2)
           && (j.circuit.slots[(id - 2) / 2].fwd[0].Open? ==> id > j.circuit.lastStreamId)
  }

  lemma NextLands(j: Joint)
    requires Linked(j)
    ensures ReadyToLand(j)
  {
    hide Queues.Sound, Inv, AllLinked, BornInOrder, Named, InTransit, Deliverable;
    if j.arrived < |j.queue.selected| {
      NextToLand(j);
      var id := j.queue.accepted[j.queue.selected[j.arrived]];
      if id == CIRCUIT_STREAM_ID {
        SomethingComes(j.queue, j.arrived, |j.circuit.shared.toDst|);
      } else {
        ArrivalDeliverable(j, (id - 2) / 2);
        OpensAreNewest(j.circuit, (id - 2) / 2);
      }
    }
  }

  /** With the shared link behind the scheduler, whatever frames the sources send and
      however sends, selections and arrivals interleave: what arrives next can be taken,
      nothing is refused, and the conservation laws and bounds of the circuit hold. */
  lemma {:induction false} SchedulerSuffices(run: seq<Joint>, turns: seq<Turn>, n: nat)
    requires JointRun(run, turns) && n <= |turns|
    ensures ReadyToLand(run[n])
    ensures !run[n].circuit.failed && Conserved(run[n].circuit.slots, run[n].circuit.shared)
    ensures SumOf(HeldCells, run[n].circuit.slots) <= CIRCUIT_WINDOW
  {
    hide Linked, ReadyToLand, Next, Run, Conserved, SumOf;
    var steps := JointRunLinked(run, turns, n);
    WhateverSourcesSend(steps);
    NextLands(run[n]);
  }

  // ---- room in the scheduler's line ----

  /** The frames of stream i that wait in the line.  Both the stream's queue and its channel
      keep their order, and the jobs that wait are the last ones accepted. */
  ghost function InLine(j: Joint, i: nat): seq<Frame>
    requires i < |j.circuit.slots|
  {
    var fwd, waiting := j.circuit.slots[i].fwd, |Queues.Waiting(j.queue.line, Id(i))|;
    if waiting <= |fwd| then fwd[|fwd| - waiting..] else fwd
  }

  /** DATA of the first n streams that waits in the line. */
  ghost function DataInLine(j: Joint, n: nat): nat
    requires n <= |j.circuit.slots|
  {
    if n == 0 then 0 else DataInLine(j, n - 1) + Total(Cell, InLine(j, n - 1))
  }

  lemma {:induction false} LineUnderWay(j: Joint, n: nat)
    requires n <= |j.circuit.slots|
    ensures DataInLine(j, n) <= SumOf(ForwardCells, j.circuit.slots[..n])
  {
    hide Total;
    if n > 0 {
      LineUnderWay(j, n - 1);
      var slots := j.circuit.slots[..n];
      assert slots[..n - 1] == j.circuit.slots[..n - 1];
      var fwd := j.circuit.slots[n - 1].fwd;
      var last := InLine(j, n - 1);
      var first := fwd[..|fwd| - |last|];
      assert fwd == first + last;
      TotalConcat(Cell, first, last);
    }
  }

  /** What waits in the line has not arrived. */
  lemma WaitingComes(j: Joint, i: nat)
    requires Linked(j) && i < |j.circuit.slots|
    ensures |Queues.Waiting(j.queue.line, Id(i))| <= |j.circuit.slots[i].fwd|
  {
    hide Inv, Queues.Creation, Queues.Formed;
    assert StreamLinked(j.queue.accepted, Landed(j), i, j.circuit.slots[i]);
    PicksPrefix(j.queue.accepted, j.queue.selected, j.arrived, Id(i));
    assert Queues.Picks(j.queue.accepted, j.queue.selected, Id(i)) + Queues.Waiting(j.queue.line, Id(i))
        == Queues.Accepted(j.queue.accepted, Id(i));
  }

  lemma UnderWayFits(slots: seq<Slot>, g: Shared)
    requires Conserved(slots, g) && SumOf(HeldCells, slots) <= CIRCUIT_WINDOW
    ensures SumOf(ForwardCells, slots) <= CIRCUIT_WINDOW
  {
    hide SumOf, Sum, Positive;
  }

  /** In every run the DATA of a circuit that waits in the line fits the credit window, which
      is the line's room for DATA; and whenever the entry sends one more DATA cell, there was
      room for it. */
  lemma {:induction false} LineHasRoom(run: seq<Joint>, turns: seq<Turn>, n: nat)
    requires JointRun(run, turns) && n <= |turns|
    ensures forall i :: 0 <= i < |run[n].circuit.slots| ==>
      |Queues.Waiting(run[n].queue.line, Id(i))| <= |run[n].circuit.slots[i].fwd|
    ensures DataInLine(run[n], |run[n].circuit.slots|) <= SumOf(ForwardCells, run[n].circuit.slots) <= CIRCUIT_WINDOW
    ensures n < |turns| && SumOf(ForwardCells, run[n].circuit.slots) < SumOf(ForwardCells, run[n + 1].circuit.slots) ==>
      DataInLine(run[n], |run[n].circuit.slots|) < CIRCUIT_WINDOW
  {
    hide Linked, JointStep, Run, Conserved, SumOf, DataInLine;
    var j := run[n];
    var steps := JointRunLinked(run, turns, n);
    SchedulerSuffices(run, turns, n);
    UnderWayFits(j.circuit.slots, j.circuit.shared);
    LineUnderWay(j, |j.circuit.slots|);
    assert j.circuit.slots[..|j.circuit.slots|] == j.circuit.slots;
    forall i | 0 <= i < |j.circuit.slots|
      ensures |Queues.Waiting(j.queue.line, Id(i))| <= |j.circuit.slots[i].fwd|
    {
      WaitingComes(j, i);
    }
    if n < |turns| {
      SchedulerSuffices(run, turns, n + 1);
      UnderWayFits(run[n + 1].circuit.slots, run[n + 1].circuit.shared);
    }
  }
}
