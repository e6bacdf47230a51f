/**
 The circuit credit pool: one 2048-cell window shared by the legs of a circuit.  A grant
 is announced by a callback that may call back into the pool.  What the callbacks do is
 arbitrary: the k-th one attempts the operations `callback(k)`, each on the pool as it
 stands at that moment, and an error it does not catch ends it and the distribution.
 */
module CreditPool {
  import opened Limits
  import opened Frames
  import opened PoolLeg

  /** A leg is identified by its owner: `cancel` takes a leg out of the queue before its
      owner can be dropped or added again. */
  type Owner = nat

  datatype Op =
    | AddLeg(owner: Owner)
    | DemandCells(owner: Owner, amount: nat, tooSoon: bool)
    | SentCells(owner: Owner, amount: nat)
    | ReturnedCells(amount: nat)
    | ReleaseCells(owner: Owner, amount: nat)
    | CancelDemand(owner: Owner)
    | RemoveLeg(owner: Owner)
    | DestroyPool

  /** An operation inside a callback, which may catch the error if it throws. */
  datatype Attempt = Attempt(op: Op, caught: bool)

  // -------------------------------------------------------------- sums over the legs

  datatype Field = Grants | Unmet

  function Value(which: Field, leg: Leg): nat {
    if which == Grants then leg.granted else leg.wanted
  }

  ghost function SumOver(which: Field, legs: map<Owner, Leg>): nat
    decreases |legs|
  {
    if legs == map[] then 0 else
    var o :| o in legs;
    Value(which, legs[o]) + SumOver(which, legs - {o})
  }

  /** The sum does not depend on the order in which legs are counted. */
  lemma {:induction false} SumWithout(which: Field, legs: map<Owner, Leg>, o: Owner)
    requires o in legs
    ensures SumOver(which, legs) == Value(which, legs[o]) + SumOver(which, legs - {o})
    decreases |legs|
  {
    var p :| p in legs && SumOver(which, legs) == Value(which, legs[p]) + SumOver(which, legs - {p});
    if p != o {
      SumWithout(which, legs - {p}, o);
      SumWithout(which, legs - {o}, p);
      assert legs - {p} - {o} == legs - {o} - {p};
    }
  }

  lemma SumWith(which: Field, legs: map<Owner, Leg>, o: Owner, leg: Leg)
    ensures SumOver(which, legs[o := leg])
         == SumOver(which, legs) + Value(which, leg) - (if o in legs then Value(which, legs[o]) else 0)
  {
    SumWithout(which, legs[o := leg], o);
    assert legs[o := leg] - {o} == legs - {o};
    if o in legs {
      SumWithout(which, legs, o);
    } else {
      assert legs - {o} == legs;
    }
  }

  lemma SumsWith(legs: map<Owner, Leg>, o: Owner, leg: Leg)
    ensures forall which ::
      SumOver(which, legs[o := leg])
      == SumOver(which, legs) + Value(which, leg) - (if o in legs then Value(which, legs[o]) else 0)
  {
    forall which ensures SumOver(which, legs[o := leg])
         == SumOver(which, legs) + Value(which, leg) - (if o in legs then Value(which, legs[o]) else 0)
    {
      SumWith(which, legs, o, leg);
    }
  }

  // ---------------------------------------------------------------- the demand queue

  ghost predicate NoRepeats(queue: seq<Owner>) {
    forall i, j :: 0 <= i < j < |queue| ==> queue[i] != queue[j]
  }

  /** The queue holds exactly the legs with unmet demand, each once. */
  ghost predicate QueueExact(legs: map<Owner, Leg>, queue: seq<Owner>) {
    && NoRepeats(queue)
    && (forall o :: o in queue <==> o in legs && legs[o].wanted > 0)
  }

  /** The queue without every occurrence of one owner, the others in their order. */
  function Without(queue: seq<Owner>, o: Owner): (r: seq<Owner>)
    ensures forall p :: p in r <==> p in queue && p != o
  {
    if queue == [] then []
    else if queue[0] == o then Without(queue[1..], o)
    else [queue[0]] + Without(queue[1..], o)
  }

  lemma {:induction false} WithoutNone(queue: seq<Owner>, o: Owner)
    requires o !in queue
    ensures Without(queue, o) == queue
  {
    if queue != [] {
      WithoutNone(queue[1..], o);
    }
  }

  /** Taking one owner out of the queue leaves those before and behind it where they are. */
  lemma {:induction false} WithoutIs(front: seq<Owner>, o: Owner, back: seq<Owner>)
    requires o !in front && o !in back
    ensures Without(front + [o] + back, o) == front + back
  {
    var queue := front + [o] + back;
    if front == [] {
      assert queue[1..] == back;
      WithoutNone(back, o);
    } else {
      assert queue[1..] == front[1..] + [o] + back;
      WithoutIs(front[1..], o, back);
    }
  }

  lemma {:induction false} WithoutKeepsOrder(queue: seq<Owner>, o: Owner)
    requires NoRepeats(queue)
    ensures NoRepeats(Without(queue, o))
  {
    if queue != [] {
      assert forall j :: 0 <= j < |queue| - 1 ==> queue[1..][j] == queue[j + 1];
      WithoutKeepsOrder(queue[1..], o);
      assert queue[0] !in queue[1..];
    }
  }

  // -------------------------------------------------------- what a distribution does

  /** Only grants happened: every leg holds what it held plus what it was given, and asks
      for that much less. */
  ghost predicate OnlyGrants(before: map<Owner, Leg>, after: map<Owner, Leg>) {
    && after.Keys == before.Keys
    && (forall o :: o in before ==>
          && before[o].granted <= after[o].granted
          && before[o].granted + before[o].wanted == after[o].granted + after[o].wanted
          && after[o] == before[o].(granted := after[o].granted, wanted := after[o].wanted))
  }

  ghost function Received(before: map<Owner, Leg>, after: map<Owner, Leg>, o: Owner): int
    requires o in before && o in after
  {
    after[o].granted - before[o].granted
  }

  /** Max-min fairness: no leg received more than one cell beyond a leg left unsatisfied. */
  ghost predicate Fair(before: map<Owner, Leg>, after: map<Owner, Leg>)
    requires before.Keys == after.Keys
  {
    forall o, p :: o in after && p in after && after[o].wanted > 0 ==>
      Received(before, after, p) <= Received(before, after, o) + 1
  }

  /** An undisturbed distribution: only grants, nothing left undone, fair. */
  ghost predicate Distributed(before: map<Owner, Leg>, after: map<Owner, Leg>, available: nat) {
    && OnlyGrants(before, after)
    && (available == 0 || forall o :: o in after ==> after[o].wanted == 0)
    && Fair(before, after)
  }

  /** A round of the water filling in progress.  Every queued leg had received `level` when
      the round began; the first `left` of the queue have not been served in this round,
      the others have received `share` more, and no leg has received more than that. */
  ghost predicate Round(before: map<Owner, Leg>, legs: map<Owner, Leg>, queue: seq<Owner>,
                        level: nat, share: nat, left: nat) {
    && OnlyGrants(before, legs)
    && QueueExact(legs, queue)
    && left <= |queue|
    && (forall i :: 0 <= i < |queue| ==>
          Received(before, legs, queue[i]) == if i < left then level else level + share)
    && (forall o :: o in legs ==> Received(before, legs, o) <= level + share)
  }

  lemma RoundNone(legs: map<Owner, Leg>, queue: seq<Owner>)
    requires QueueExact(legs, queue)
    ensures Round(legs, legs, queue, 0, 0, 0)
  {
  }

  lemma ShareLeft(share: nat, left: nat)
    requires left > 0
    ensures share * (left - 1) == share * left - share && share * left >= share
  {
  }

  /** A round's share; scarce credit goes out one cell at a time. */
  function Share(available: nat, count: nat): nat
    requires count > 0
  {
    if available / count > 1 then available / count else 1
  }

  /** The share of a round fits the credit left, unless it is the single cell. */
  lemma ShareFits(available: nat, count: nat)
    requires count > 0
    ensures Share(available, count) > 1 ==> Share(available, count) * count <= available
    ensures available < (Share(available, count) + 1) * count
  {
  }

  lemma RoundBegins(before: map<Owner, Leg>, legs: map<Owner, Leg>, queue: seq<Owner>, level: nat, last: nat, share: nat)
    requires Round(before, legs, queue, level, last, 0)
    ensures Round(before, legs, queue, level + last, share, |queue|)
  {
  }

  /** Serving the head gives it that much and no one else anything. */
  lemma ServedReceives(before: map<Owner, Leg>, legs: map<Owner, Leg>, o: Owner, amount: nat)
    requires OnlyGrants(before, legs) && o in legs && amount <= legs[o].wanted
    ensures var legs' := legs[o := Granted(legs[o], amount)];
      && OnlyGrants(before, legs')
      && (forall p :: p in legs ==> Received(before, legs', p) == Received(before, legs, p) + if p == o then amount else 0)
  {
  }

  /** One service of the head of the queue. */
  lemma RoundServes(before: map<Owner, Leg>, legs: map<Owner, Leg>, queue: seq<Owner>,
                    level: nat, share: nat, left: nat, amount: nat)
    requires Round(before, legs, queue, level, share, left) && left > 0
    requires amount <= legs[queue[0]].wanted && amount <= share
    requires amount < share ==> amount == legs[queue[0]].wanted
    ensures var o := queue[0];
      var legs' := legs[o := Granted(legs[o], amount)];
      var queue' := queue[1..] + (if legs'[o].wanted > 0 then [o] else []);
      QueueExact(legs', queue') ==> Round(before, legs', queue', level, share, left - 1)
  {
    hide OnlyGrants, Received;
    var o := queue[0];
    var legs' := legs[o := Granted(legs[o], amount)];
    var queue' := queue[1..] + (if legs'[o].wanted > 0 then [o] else []);
    RoundHasHead(before, legs, queue, level, share, left);
    ServedReceives(before, legs, o, amount);
    forall i | 0 <= i < |queue| - 1
      ensures queue'[i] == queue[i + 1] && queue'[i] != o && queue'[i] in legs
    {
      assert queue[i + 1] in queue;
    }
  }

  lemma RoundHasHead(before: map<Owner, Leg>, legs: map<Owner, Leg>, queue: seq<Owner>, level: nat, share: nat, left: nat)
    requires Round(before, legs, queue, level, share, left) && left > 0
    ensures queue != [] && queue[0] in legs && QueueExact(legs, queue)
  {
    assert queue[0] in queue;
  }

  lemma RoundIsFair(before: map<Owner, Leg>, legs: map<Owner, Leg>, queue: seq<Owner>, level: nat, share: nat, left: nat)
    requires Round(before, legs, queue, level, share, left) && (share <= 1 || left == 0)
    ensures Fair(before, legs)
  {
    forall o, p | o in legs && p in legs && legs[o].wanted > 0
      ensures Received(before, legs, p) <= Received(before, legs, o) + 1
    {
      assert o in queue;
    }
  }

  lemma RoundEnds(before: map<Owner, Leg>, legs: map<Owner, Leg>, queue: seq<Owner>, level: nat, share: nat, left: nat,
                  available: nat)
    requires Round(before, legs, queue, level, share, left) && (share <= 1 || left == 0)
    requires available == 0 || queue == []
    ensures Distributed(before, legs, available)
  {
    RoundIsFair(before, legs, queue, level, share, left);
    assert available > 0 ==> forall o :: o in legs && legs[o].wanted > 0 ==> o in queue;
  }

  // ------------------------------------------------------- the pool between two steps

  datatype State = State(available: nat, inFlight: nat, legs: map<Owner, Leg>, pending: seq<Owner>, closed: bool)

  /** Holds after every operation and at every callback. */
  ghost predicate Lawful(s: State) {
    && (!s.closed ==> s.available + SumOver(Grants, s.legs) + s.inFlight == CIRCUIT_WINDOW)
    && (s.closed ==> s.available == 0 && s.inFlight == 0 && s.legs == map[])
    && QueueExact(s.legs, s.pending)
    && |s.legs| <= MAX_ROUTE_STREAMS
    && (forall o :: o in s.legs ==> s.legs[o].granted + s.legs[o].wanted <= CIRCUIT_WINDOW)
  }

  /** Where a step leaves the pool, and whether it returned rather than threw. */
  datatype Outcome = Outcome(state: State, ok: bool)

  function Withdrawn(s: State, o: Owner): State
    requires o in s.legs
  {
    s.(legs := s.legs[o := Cancelled(s.legs[o])], pending := Without(s.pending, o))
  }

  /** What an operation does before it distributes; where it throws it has done nothing. */
  function Applied(s: State, op: Op): Outcome {
    match op
    case AddLeg(o) =>
      if s.closed || |s.legs| >= MAX_ROUTE_STREAMS || o in s.legs then Outcome(s, false)
      else Outcome(s.(legs := s.legs[o := FRESH]), true)
    case DemandCells(o, n, tooSoon) =>
      if o !in s.legs || s.closed || !MayDemand(s.legs[o], n, tooSoon) then Outcome(s, false)
      else if n == 0 then Outcome(Withdrawn(s, o), true)
      else Outcome(s.(legs := s.legs[o := Demanded(s.legs[o], n)], pending := s.pending + [o]), true)
    case SentCells(o, n) =>
      if o !in s.legs || s.closed || n < 1 || n > s.legs[o].granted then Outcome(s, false)
      else Outcome(s.(legs := s.legs[o := Spent(s.legs[o], n)], inFlight := s.inFlight + n), true)
    case ReturnedCells(n) =>
      if s.closed || n < 1 || n > s.inFlight then Outcome(s, false)
      else Outcome(s.(inFlight := s.inFlight - n, available := s.available + n), true)
    case ReleaseCells(o, n) =>
      if o !in s.legs || s.closed || n < 1 || n > s.legs[o].granted then Outcome(s, false)
      else Outcome(s.(legs := s.legs[o := PoolLeg.Returned(s.legs[o], n)], available := s.available + n), true)
    case CancelDemand(o) =>
      Outcome(if o in s.legs then Withdrawn(s, o) else s, true)
    case RemoveLeg(o) =>
      if o !in s.legs then Outcome(s, true)
      else Outcome(Withdrawn(s, o).(legs := s.legs - {o}, available := s.available + s.legs[o].granted), true)
    case DestroyPool =>
      Outcome(State(0, 0, map[], [], true), true)
  }

  /** The operations that go on to distribute, in this state. */
  predicate Distributes(s: State, op: Op) {
    match op
    case DemandCells(_, n, _) => n > 0
    case ReturnedCells(_) => true
    case ReleaseCells(_, _) => true
    case RemoveLeg(o) => o in s.legs
    case _ => false
  }

  function Attempted(s: State, a: Attempt): Outcome {
    var out := Applied(s, a.op);
    if a.caught then Outcome(out.state, true) else out
  }

  /** A callback at work, during a distribution: no operation distributes again. */
  function Obeyed(s: State, ops: seq<Attempt>): Outcome {
    if ops == [] then Outcome(s, true) else
    var first := Obeyed(s, ops[..|ops| - 1]);
    if first.ok then Attempted(first.state, ops[|ops| - 1]) else first
  }

  /** A distribution under way: `left` services of the present pass are still to come, each
      of up to `share` cells, and `calls` callbacks have been made. */
  datatype Cursor = Cursor(state: State, share: nat, left: nat, calls: nat, ok: bool)

  function Begun(s: State): Cursor {
    Cursor(s, 0, 0, 0, true)
  }

  predicate Halted(c: Cursor) {
    !c.ok || c.state.available == 0 || c.state.pending == []
  }

  /** Where a pass has ended the next one begins, over the legs queued at that moment. */
  function Pass(c: Cursor): Cursor
    requires !Halted(c)
  {
    if c.left > 0 then c
    else c.(share := Share(c.state.available, |c.state.pending|), left := |c.state.pending|)
  }

  /** The head of the queue gets its share and is queued again while unsatisfied. */
  function Served(s: State, share: nat): State
    requires s.pending != [] && s.pending[0] in s.legs
  {
    var o := s.pending[0];
    var amount := Min(share, Min(s.legs[o].wanted, s.available));
    var leg := Granted(s.legs[o], amount);
    s.(available := s.available - amount, legs := s.legs[o := leg],
       pending := s.pending[1..] + if leg.wanted > 0 then [o] else [])
  }

  /** One turn of the inner loop; an entry of the queue that is out of date is skipped. */
  function Next(c: Cursor, callback: nat -> seq<Attempt>): Cursor
    requires !Halted(c)
  {
    var d := Pass(c);
    var s := d.state;
    if s.pending[0] !in s.legs || s.legs[s.pending[0]].wanted == 0 then
      d.(state := s.(pending := s.pending[1..]), left := d.left - 1)
    else
      var out := Obeyed(Served(s, d.share), callback(d.calls));
      Cursor(out.state, d.share, d.left - 1, d.calls + 1, out.ok)
  }

  function Run(s: State, callback: nat -> seq<Attempt>, n: nat): Cursor {
    if n == 0 then Begun(s) else
    var c := Run(s, callback, n - 1);
    if Halted(c) then c else Next(c, callback)
  }

  /** A distribution from `s` ends, and does so like this. */
  ghost predicate Settles(s: State, callback: nat -> seq<Attempt>, end: Outcome) {
    exists n :: Halted(Run(s, callback, n)) && end == Outcome(Run(s, callback, n).state, Run(s, callback, n).ok)
  }

  /** What a public operation comes to, called from a callback or from outside. */
  ghost predicate ComesTo(s: State, op: Op, distributing: bool, callback: nat -> seq<Attempt>, end: Outcome) {
    var first := Applied(s, op);
    if first.ok && Distributes(s, op) && !distributing then Settles(first.state, callback, end) else end == first
  }

  predicate IsDemand(op: Op) {
    op.DemandCells? && op.amount > 0
  }

  /** These operations demand credit. */
  predicate Demands(ops: seq<Attempt>) {
    exists i :: 0 <= i < |ops| && IsDemand(ops[i].op)
  }

  ghost predicate QuietFrom(callback: nat -> seq<Attempt>, quiet: nat) {
    forall k :: k >= quiet ==> !Demands(callback(k))
  }

  /** Callbacks that leave the pool alone. */
  ghost predicate Calm(callback: nat -> seq<Attempt>) {
    forall k :: callback(k) == []
  }

  // -------------------------------------------------------- laws of every distribution

  lemma WithdrawnKeeps(s: State, o: Owner)
    requires Lawful(s) && o in s.legs
    ensures Lawful(Withdrawn(s, o))
    ensures SumOver(Unmet, Withdrawn(s, o).legs) + s.legs[o].wanted == SumOver(Unmet, s.legs)
  {
    SumsWith(s.legs, o, Cancelled(s.legs[o]));
    WithoutKeepsOrder(s.pending, o);
  }

  lemma RemovedKeeps(s: State, o: Owner)
    requires Lawful(s) && o in s.legs
    ensures Lawful(Applied(s, RemoveLeg(o)).state)
    ensures SumOver(Unmet, Applied(s, RemoveLeg(o)).state.legs) <= SumOver(Unmet, s.legs)
  {
    hide SumOver;
    WithdrawnKeeps(s, o);
    SumWithout(Grants, s.legs, o);
    SumWithout(Unmet, s.legs, o);
    var legs := s.legs - {o};
    assert legs.Keys == s.legs.Keys - {o};
    assert |legs| == |legs.Keys| && |s.legs| == |s.legs.Keys|;
  }

  lemma DemandedKeeps(s: State, o: Owner, n: nat)
    requires Lawful(s) && o in s.legs && MayDemand(s.legs[o], n, false) && n > 0
    ensures Lawful(s.(legs := s.legs[o := Demanded(s.legs[o], n)], pending := s.pending + [o]))
  {
    hide SumOver;
    SumsWith(s.legs, o, Demanded(s.legs[o], n));
  }

  lemma NoneHeld()
    ensures forall which :: SumOver(which, map[]) == 0
    ensures Lawful(State(0, 0, map[], [], true))
  {
  }

  /** Every operation keeps the laws, and only a demand adds to the demand unmet. */
  lemma AppliedKeeps(s: State, op: Op)
    requires Lawful(s)
    ensures Lawful(Applied(s, op).state)
    ensures !IsDemand(op) ==> SumOver(Unmet, Applied(s, op).state.legs) <= SumOver(Unmet, s.legs)
  {
    hide SumOver, QueueExact, Lawful;
    if Applied(s, op).ok {
      match op
      case AddLeg(o) => AddedKeeps(s, o);
      case DemandCells(o, n, _) => if n == 0 { WithdrawnKeeps(s, o); } else { DemandedKeeps(s, o, n); }
      case SentCells(o, n) => SpentKeeps(s, o, n);
      case ReturnedCells(n) => ReturnedKeeps(s, n);
      case ReleaseCells(o, n) => ReleasedKeeps(s, o, n);
      case CancelDemand(o) => if o in s.legs { WithdrawnKeeps(s, o); }
      case RemoveLeg(o) => if o in s.legs { RemovedKeeps(s, o); }
      case DestroyPool => NoneHeld();
    }
  }

  lemma AddedKeeps(s: State, o: Owner)
    requires Lawful(s) && Applied(s, AddLeg(o)).ok
    ensures Lawful(Applied(s, AddLeg(o)).state)
    ensures SumOver(Unmet, Applied(s, AddLeg(o)).state.legs) == SumOver(Unmet, s.legs)
  {
    hide SumOver;
    SumsWith(s.legs, o, FRESH);
  }

  lemma SpentKeeps(s: State, o: Owner, n: nat)
    requires Lawful(s) && Applied(s, SentCells(o, n)).ok
    ensures Lawful(Applied(s, SentCells(o, n)).state)
    ensures SumOver(Unmet, Applied(s, SentCells(o, n)).state.legs) == SumOver(Unmet, s.legs)
  {
    hide SumOver;
    SumsWith(s.legs, o, Spent(s.legs[o], n));
  }

  lemma ReturnedKeeps(s: State, n: nat)
    requires Lawful(s)
    ensures Lawful(Applied(s, ReturnedCells(n)).state)
  {
    hide SumOver;
  }

  lemma ReleasedKeeps(s: State, o: Owner, n: nat)
    requires Lawful(s) && Applied(s, ReleaseCells(o, n)).ok
    ensures Lawful(Applied(s, ReleaseCells(o, n)).state)
    ensures SumOver(Unmet, Applied(s, ReleaseCells(o, n)).state.legs) == SumOver(Unmet, s.legs)
  {
    hide SumOver;
    SumsWith(s.legs, o, PoolLeg.Returned(s.legs[o], n));
  }

  lemma {:induction false} ObeyedKeeps(s: State, ops: seq<Attempt>)
    requires Lawful(s)
    ensures Lawful(Obeyed(s, ops).state)
    ensures !Demands(ops) ==> SumOver(Unmet, Obeyed(s, ops).state.legs) <= SumOver(Unmet, s.legs)
  {
    hide SumOver, Lawful, Applied;
    if ops != [] {
      var early, last := ops[..|ops| - 1], ops[|ops| - 1];
      ObeyedKeeps(s, early);
      AppliedKeeps(Obeyed(s, early).state, last.op);
      assert Demands(early) ==> Demands(ops) by {
        if i :| 0 <= i < |early| && IsDemand(early[i].op) {
          assert ops[i] == early[i];
        }
      }
      assert IsDemand(last.op) ==> Demands(ops);
    }
  }

  lemma ServedKeeps(s: State, share: nat)
    requires Lawful(s) && s.available > 0 && s.pending != [] && share >= 1
    ensures s.pending[0] in s.legs && s.legs[s.pending[0]].wanted > 0
    ensures Lawful(Served(s, share)) && SumOver(Unmet, Served(s, share).legs) < SumOver(Unmet, s.legs)
  {
    hide SumOver;
    var o := s.pending[0];
    assert o in s.pending;
    var amount := Min(share, Min(s.legs[o].wanted, s.available));
    SumsWith(s.legs, o, Granted(s.legs[o], amount));
    HeadServed(s.legs, s.pending, amount);
  }

  /** An entry of the queue is never out of date; each turn serves a leg and calls back. */
  lemma NextKeeps(c: Cursor, callback: nat -> seq<Attempt>)
    requires Lawful(c.state) && !Halted(c) && (c.left > 0 ==> c.share >= 1)
    ensures var s, d := c.state, Pass(c);
      && s.pending[0] in s.legs
      && var out := Obeyed(Served(s, d.share), callback(c.calls));
         Next(c, callback) == Cursor(out.state, d.share, d.left - 1, c.calls + 1, out.ok)
    ensures Lawful(Next(c, callback).state)
    ensures Next(c, callback).share >= 1
    ensures !Demands(callback(c.calls)) ==>
      SumOver(Unmet, Next(c, callback).state.legs) < SumOver(Unmet, c.state.legs)
  {
    hide SumOver, Lawful, Obeyed;
    ServedKeeps(c.state, Pass(c).share);
    ObeyedKeeps(Served(c.state, Pass(c).share), callback(c.calls));
  }

  lemma RunOn(s: State, callback: nat -> seq<Attempt>, n: nat)
    requires !Halted(Run(s, callback, n))
    ensures Run(s, callback, n + 1) == Next(Run(s, callback, n), callback)
  {
  }

  lemma RunNone(s: State, callback: nat -> seq<Attempt>)
    ensures Run(s, callback, 0) == Begun(s)
  {
  }

  /** At every callback of every distribution, endless ones too, the pool is lawful. */
  lemma {:induction false} RunKeeps(s: State, callback: nat -> seq<Attempt>, n: nat)
    requires Lawful(s)
    ensures var c := Run(s, callback, n);
      && Lawful(c.state) && (c.left > 0 ==> c.share >= 1) && c.calls <= n
      && (!Halted(c) ==> c.calls == n)
  {
    hide SumOver, Lawful;
    if n > 0 {
      RunKeeps(s, callback, n - 1);
      var c := Run(s, callback, n - 1);
      if !Halted(c) {
        NextKeeps(c, callback);
      }
    }
  }

  lemma {:induction false} StaysHalted(s: State, callback: nat -> seq<Attempt>, n: nat, m: nat)
    requires n <= m && Halted(Run(s, callback, n))
    ensures Run(s, callback, m) == Run(s, callback, n)
    decreases m
  {
    if n < m {
      StaysHalted(s, callback, n, m - 1);
    }
  }

  lemma HasSettled(s: State, callback: nat -> seq<Attempt>, n: nat)
    requires Halted(Run(s, callback, n))
    ensures Settles(s, callback, Outcome(Run(s, callback, n).state, Run(s, callback, n).ok))
  {
  }

  /** A distribution has one outcome. */
  lemma SettlesOnce(s: State, callback: nat -> seq<Attempt>, a: Outcome, b: Outcome)
    requires Settles(s, callback, a) && Settles(s, callback, b)
    ensures a == b
  {
    var n :| Halted(Run(s, callback, n)) && a == Outcome(Run(s, callback, n).state, Run(s, callback, n).ok);
    var m :| Halted(Run(s, callback, m)) && b == Outcome(Run(s, callback, m).state, Run(s, callback, m).ok);
    if n <= m {
      StaysHalted(s, callback, n, m);
    } else {
      StaysHalted(s, callback, m, n);
    }
  }

  /** While callbacks demand nothing, each of them leaves less unmet demand. */
  lemma {:induction false} QuietConsumes(s: State, callback: nat -> seq<Attempt>, quiet: nat, n: nat)
    requires Lawful(s) && QuietFrom(callback, quiet) && !Halted(Run(s, callback, quiet + n))
    ensures SumOver(Unmet, Run(s, callback, quiet + n).state.legs) + n <= SumOver(Unmet, Run(s, callback, quiet).state.legs)
  {
    hide SumOver, Lawful, Obeyed, Next;
    if n > 0 {
      var c := Run(s, callback, quiet + n - 1);
      QuietConsumes(s, callback, quiet, n - 1);
      RunKeeps(s, callback, quiet + n - 1);
      NextKeeps(c, callback);
    }
  }

  lemma QueuedWants(s: State)
    requires Lawful(s) && s.pending != []
    ensures SumOver(Unmet, s.legs) > 0
  {
    assert s.pending[0] in s.pending;
    SumWithout(Unmet, s.legs, s.pending[0]);
  }

  /** Distribution ends once callbacks demand no more: there are then at most as many of
      them as cells wanted. */
  lemma EndsWhenQuiet(s: State, callback: nat -> seq<Attempt>, quiet: nat)
    requires Lawful(s) && QuietFrom(callback, quiet)
    ensures Halted(Run(s, callback, quiet + SumOver(Unmet, Run(s, callback, quiet).state.legs)))
  {
    hide Run, Obeyed, SumOver, Lawful;
    var m := SumOver(Unmet, Run(s, callback, quiet).state.legs);
    var c := Run(s, callback, quiet + m);
    if !Halted(c) {
      QuietConsumes(s, callback, quiet, m);
      RunKeeps(s, callback, quiet + m);
      QueuedWants(c.state);
      assert false;
    }
  }

  lemma CallbacksBounded(s: State, callback: nat -> seq<Attempt>, n: nat)
    requires Lawful(s) && QuietFrom(callback, 0)
    ensures Run(s, callback, n).calls <= SumOver(Unmet, s.legs)
  {
    hide SumOver, Lawful, Next;
    var m := SumOver(Unmet, s.legs);
    EndsWhenQuiet(s, callback, 0);
    RunKeeps(s, callback, m);
    RunKeeps(s, callback, n);
    if n > m {
      StaysHalted(s, callback, m, n);
    }
  }

  /** One leg that gives back what it is granted and asks for it again. */
  function Again(o: Owner, amount: nat): nat -> seq<Attempt> {
    (k: nat) => GiveAndAsk(o, amount)
  }

  function GiveAndAsk(o: Owner, amount: nat): seq<Attempt> {
    [Attempt(ReleaseCells(o, amount), false), Attempt(DemandCells(o, amount, false), false)]
  }

  function Cycling(o: Owner, amount: nat): State {
    State(CIRCUIT_WINDOW, 0, map[o := Leg(0, amount, true, 0)], [o], false)
  }

  lemma CyclingLawful(o: Owner, amount: nat)
    requires 1 <= amount <= CIRCUIT_WINDOW
    ensures Lawful(Cycling(o, amount))
  {
    var s := Cycling(o, amount);
    SumWithout(Grants, s.legs, o);
    NoneHeld();
    assert s.legs - {o} == map[];
  }

  lemma CycleServed(o: Owner, amount: nat)
    requires 1 <= amount <= CIRCUIT_WINDOW
    ensures Served(Cycling(o, amount), CIRCUIT_WINDOW)
         == State(CIRCUIT_WINDOW - amount, 0, map[o := Leg(amount, 0, true, 0)], [], false)
  {
  }

  lemma Cycles(o: Owner, amount: nat)
    requires 1 <= amount <= CIRCUIT_WINDOW
    ensures Obeyed(Served(Cycling(o, amount), CIRCUIT_WINDOW), GiveAndAsk(o, amount)) == Outcome(Cycling(o, amount), true)
  {
    hide Served;
    var release, demand := Attempt(ReleaseCells(o, amount), false), Attempt(DemandCells(o, amount, false), false);
    var t := State(CIRCUIT_WINDOW - amount, 0, map[o := Leg(amount, 0, true, 0)], [], false);
    var u := State(CIRCUIT_WINDOW, 0, map[o := Leg(0, 0, true, 0)], [], false);
    CycleServed(o, amount);
    assert Attempted(t, release) == Outcome(u, true);
    assert Attempted(u, demand) == Outcome(Cycling(o, amount), true);
    ObeyedTwice(t, release, demand);
  }

  lemma ObeyedTwice(s: State, a: Attempt, b: Attempt)
    requires Attempted(s, a).ok
    ensures Obeyed(s, [a, b]) == Attempted(Attempted(s, a).state, b)
  {
    hide Attempted;
    assert Obeyed(s, []) == Outcome(s, true);
    assert [a][..0] == [] && [a, b][..1] == [a];
    assert Obeyed(s, [a]) == Attempted(s, a);
  }

  /** Such callbacks keep a distribution going for ever. */
  lemma {:induction false} NeverSettles(o: Owner, amount: nat, n: nat)
    requires 1 <= amount <= CIRCUIT_WINDOW
    ensures Lawful(Cycling(o, amount)) && !Halted(Run(Cycling(o, amount), Again(o, amount), n))
    ensures Run(Cycling(o, amount), Again(o, amount), n).state == Cycling(o, amount)
    ensures Run(Cycling(o, amount), Again(o, amount), n).left == 0
  {
    hide Lawful, Obeyed, Served, GiveAndAsk, Run;
    CyclingLawful(o, amount);
    if n == 0 {
      RunNone(Cycling(o, amount), Again(o, amount));
    } else {
      NeverSettles(o, amount, n - 1);
      RunKeeps(Cycling(o, amount), Again(o, amount), n - 1);
      RunOn(Cycling(o, amount), Again(o, amount), n - 1);
      NextKeeps(Run(Cycling(o, amount), Again(o, amount), n - 1), Again(o, amount));
      Cycles(o, amount);
    }
  }

  predicate Destroys(ops: seq<Attempt>) {
    exists i :: 0 <= i < |ops| && ops[i].op.DestroyPool?
  }

  /** A pool is closed by DestroyPool and nothing else. */
  lemma {:induction false} ObeyedCloses(s: State, ops: seq<Attempt>)
    requires !s.closed && Obeyed(s, ops).state.closed
    ensures Destroys(ops)
  {
    if ops != [] && !Obeyed(s, ops[..|ops| - 1]).state.closed {
      assert ops[|ops| - 1].op.DestroyPool?;
    } else if ops != [] {
      ObeyedCloses(s, ops[..|ops| - 1]);
    }
  }

  lemma {:induction false} RunCloses(s: State, callback: nat -> seq<Attempt>, n: nat)
    requires !s.closed && Run(s, callback, n).state.closed
    ensures exists k :: 0 <= k < n && Destroys(callback(k))
  {
    hide Obeyed;
    var c := Run(s, callback, n - 1);
    if c.state.closed {
      RunCloses(s, callback, n - 1);
    } else {
      CallsCounted(s, callback, n - 1);
      ObeyedCloses(Served(c.state, Pass(c).share), callback(c.calls));
      assert 0 <= c.calls < n && Destroys(callback(c.calls));
    }
  }

  lemma {:induction false} CallsCounted(s: State, callback: nat -> seq<Attempt>, n: nat)
    ensures Run(s, callback, n).calls <= n
  {
    if n > 0 {
      CallsCounted(s, callback, n - 1);
    }
  }

  // ----------------------------------------------------------------- left in peace

  /** A pass of an undisturbed distribution: the credit left covers what it still owes. */
  ghost predicate InRound(before: State, c: Cursor, level: nat) {
    && c.ok && !c.state.closed && c.state.inFlight == before.inFlight
    && Round(before.legs, c.state.legs, c.state.pending, level, c.share, c.left)
    && (c.share <= 1 || c.share * c.left <= c.state.available)
  }

  lemma PassInRound(before: State, c: Cursor, level: nat) returns (level': nat)
    requires InRound(before, c, level) && !Halted(c)
    ensures InRound(before, Pass(c), level')
  {
    level' := level;
    if c.left == 0 {
      ShareFits(c.state.available, |c.state.pending|);
      level' := level + c.share;
      RoundBegins(before.legs, c.state.legs, c.state.pending, level, c.share, Pass(c).share);
    }
  }

  lemma ServedInRound(before: State, c: Cursor, level: nat)
    requires Lawful(c.state) && !Halted(c) && InRound(before, c, level) && c.left > 0 && c.share >= 1
    ensures c.state.pending[0] in c.state.legs
    ensures InRound(before, c.(state := Served(c.state, c.share), left := c.left - 1), level)
  {
    hide Round, QueueExact, SumOver;
    var s := c.state;
    ServedKeeps(s, c.share);
    var amount := Min(c.share, Min(s.legs[s.pending[0]].wanted, s.available));
    ShareLeft(c.share, c.left);
    RoundServes(before.legs, s.legs, s.pending, level, c.share, c.left, amount);
  }

  /** Undisturbed, the passes fill the legs level by level. */
  lemma {:induction false} CalmRun(s: State, callback: nat -> seq<Attempt>, n: nat) returns (level: nat)
    requires Lawful(s) && !s.closed && Calm(callback)
    ensures InRound(s, Run(s, callback, n), level)
  {
    hide Lawful, InRound, Served, Run, Next;
    if n == 0 {
      level := 0;
      RunNone(s, callback);
      CalmBegins(s);
    } else {
      level := CalmRun(s, callback, n - 1);
      var c := Run(s, callback, n - 1);
      if Halted(c) {
        StaysHalted(s, callback, n - 1, n);
      } else {
        RunKeeps(s, callback, n - 1);
        RunOn(s, callback, n - 1);
        NextKeeps(c, callback);
        level := PassInRound(s, c, level);
        ServedInRound(s, Pass(c), level);
        RoundApart(s, Pass(c).(state := Served(c.state, Pass(c).share), left := Pass(c).left - 1), c.calls + 1, level);
      }
    }
  }

  lemma CalmBegins(s: State)
    requires Lawful(s) && !s.closed
    ensures InRound(s, Begun(s), 0)
  {
    RoundNone(s.legs, s.pending);
  }

  /** The number of callbacks made is no part of the round. */
  lemma RoundApart(before: State, c: Cursor, calls: nat, level: nat)
    requires InRound(before, c, level)
    ensures InRound(before, c.(calls := calls), level)
  {
  }

  /** Undisturbed, distribution only grants, leaves no credit unused while demand is unmet,
      and is max-min fair. */
  lemma SettlesFairly(s: State, callback: nat -> seq<Attempt>, end: Outcome)
    requires Lawful(s) && !s.closed && Calm(callback) && Settles(s, callback, end)
    ensures end.ok && !end.state.closed && end.state.inFlight == s.inFlight
    ensures Distributed(s.legs, end.state.legs, end.state.available)
  {
    hide Round, Distributed, Lawful, SumOver, Run;
    var n :| Halted(Run(s, callback, n)) && end == Outcome(Run(s, callback, n).state, Run(s, callback, n).ok);
    var c := Run(s, callback, n);
    var level := CalmRun(s, callback, n);
    if c.share > 1 && c.left > 0 {
      assert c.share * c.left > 0;
      RoundHasHead(s.legs, c.state.legs, c.state.pending, level, c.share, c.left);
      assert false;
    }
    RoundEnds(s.legs, c.state.legs, c.state.pending, level, c.share, c.left, c.state.available);
  }

  // ------------------------------------------------------------- demands in full

  /** A demand for zero needs an open one; any other needs the leg to want nothing, to fit
      the window of 2048 together with what it holds, and, when the caller is limited and in
      a hurry, 32 cells of progress. */
  predicate DemandFits(leg: Leg, amount: nat, tooSoon: bool) {
    if amount == 0 then leg.demandOpen
    else leg.wanted == 0 && leg.granted + amount <= 2048 && (tooSoon ==> leg.progress >= 32)
  }

  /** The pool when the leg wants this many cells, behind all who already wait. */
  function Asked(s: State, o: Owner, amount: nat): State
    requires o in s.legs
  {
    var leg := s.legs[o];
    State(s.available, s.inFlight,
          s.legs[o := Leg(leg.granted, amount, true, if leg.progress <= 32 then 0 else leg.progress - 32)],
          s.pending + [o], s.closed)
  }

  /** The leg wants nothing any more, and nothing else has changed. */
  ghost predicate Withdrew(s: State, s': State, o: Owner)
    requires o in s.legs
  {
    && s'.available == s.available && s'.inFlight == s.inFlight && s'.closed == s.closed
    && s'.legs == s.legs[o := s.legs[o].(wanted := 0, demandOpen := false)]
    && s'.pending == Without(s.pending, o)
  }

  lemma DemandIsFit(leg: Leg, amount: nat, tooSoon: bool)
    ensures MayDemand(leg, amount, tooSoon) <==> DemandFits(leg, amount, tooSoon)
  {
  }

  class Pool {
    var available: nat
    var inFlight: nat
    var legs: map<Owner, Leg>
    var pending: seq<Owner>
    var distributing: bool
    var closed: bool

    ghost function Now(): State
      reads this`available, this`inFlight, this`legs, this`pending, this`closed
    {
      State(available, inFlight, legs, pending, closed)
    }

    ghost predicate Valid()
      reads this`closed, this`available, this`inFlight, this`legs, this`pending
    {
      Lawful(Now())
    }

    constructor ()
      ensures Valid() && !distributing && Now() == State(CIRCUIT_WINDOW, 0, map[], [], false)
    {
      available, inFlight := CIRCUIT_WINDOW, 0;
      legs, pending := map[], [];
      distributing, closed := false, false;
      new;
      NoneHeld();
    }

    method Add(owner: Owner) returns (ok: bool)
      requires Valid()
      modifies this
      ensures Valid() && distributing == old(distributing)
      ensures Outcome(Now(), ok) == Applied(old(Now()), AddLeg(owner))
      ensures ok <==> !old(closed) && |old(legs)| < MAX_ROUTE_STREAMS && owner !in old(legs)
      ensures legs == if ok then old(legs)[owner := Leg(0, 0, false, 32)] else old(legs)
      ensures available == old(available) && inFlight == old(inFlight) && pending == old(pending) && closed == old(closed)
    {
      hide Lawful;
      AppliedKeeps(Now(), AddLeg(owner));
      ok := !closed && |legs| < MAX_ROUTE_STREAMS && owner !in legs;
      if ok {
        legs := legs[owner := FRESH];
      }
    }

    method Cancel(owner: Owner)
      requires Valid()
      modifies this`legs, this`pending
      ensures Valid() && Outcome(Now(), true) == Applied(old(Now()), CancelDemand(owner))
      ensures legs == if owner in old(legs) then old(legs)[owner := old(legs)[owner].(wanted := 0, demandOpen := false)]
                      else old(legs)
      ensures owner !in old(legs) ==> pending == old(pending)
      ensures owner in old(legs) ==> pending == Without(old(pending), owner)
    {
      hide Lawful;
      AppliedKeeps(Now(), CancelDemand(owner));
      if owner in legs {
        legs := legs[owner := Cancelled(legs[owner])];
        pending := Without(pending, owner);
      }
    }

    method Sent(owner: Owner, amount: nat) returns (ok: bool)
      requires Valid()
      modifies this
      ensures Valid() && distributing == old(distributing)
      ensures Outcome(Now(), ok) == Applied(old(Now()), SentCells(owner, amount))
      ensures ok <==> owner in old(legs) && !old(closed) && 1 <= amount <= old(legs)[owner].granted
      ensures ok ==>
        var leg := old(legs)[owner];
        && legs == old(legs)[owner := leg.(granted := leg.granted - amount, progress := Min(leg.progress + amount, 64))]
        && inFlight == old(inFlight) + amount
      ensures !ok ==> legs == old(legs) && inFlight == old(inFlight)
      ensures available == old(available) && pending == old(pending) && closed == old(closed)
    {
      hide Lawful;
      AppliedKeeps(Now(), SentCells(owner, amount));
      ok := owner in legs && !closed && 1 <= amount <= legs[owner].granted;
      if ok {
        legs := legs[owner := Spent(legs[owner], amount)];
        inFlight := inFlight + amount;
      }
    }

    method Destroy()
      requires Valid()
      modifies this
      ensures Valid() && distributing == old(distributing)
      ensures Now() == State(0, 0, map[], [], true)
    {
      NoneHeld();
      closed := true;
      pending := [];
      legs := map[];
      available, inFlight := 0, 0;
    }

    /** Takes the head of the queue and grants it a share.  A queued leg is always current
        and unsatisfied, so the stale-entry test in the loop never skips one. */
    method GrantHead(share: nat)
      requires Valid() && available > 0 && pending != [] && share >= 1
      modifies this`available, this`legs, this`pending
      ensures Valid() && old(pending)[0] in old(legs) && Now() == Served(old(Now()), share)
    {
      ServedKeeps(Now(), share);
      var o := pending[0];
      var amount := Min(share, Min(legs[o].wanted, available));
      available := available - amount;
      legs := legs[o := Granted(legs[o], amount)];
      pending := pending[1..] + (if legs[o].wanted > 0 then [o] else []);
    }

    /** `_distribute`: max-min water filling over the queue.  It ends when the callbacks
        demand no more from the `quiet`-th on, and then it has done what the passes do;
        `ok` is false when a callback threw. */
    method Distribute(callback: nat -> seq<Attempt>, ghost quiet: nat) returns (ok: bool)
      requires Valid() && QuietFrom(callback, quiet)
      modifies this
      ensures Valid() && distributing == old(distributing)
      ensures old(closed) || old(distributing) ==> ok && unchanged(this)
      ensures !old(closed) && !old(distributing) ==>
        && Settles(old(Now()), callback, Outcome(Now(), ok))
        && (ok ==> available == 0 || pending == [])
        && (closed ==> exists k :: Destroys(callback(k)))
        && (Calm(callback) ==> ok && inFlight == old(inFlight) && Distributed(old(legs), legs, available))
      decreases if distributing then 0 else 1, 0
    {
      hide Lawful, SumOver, Distributed, Next, Calm, Run, Settles, Obeyed, Served;
      ok := true;
      if closed || distributing {
        return;
      }
      ghost var start := Now();
      ghost var end := quiet + SumOver(Unmet, Run(start, callback, quiet).state.legs);
      EndsWhenQuiet(start, callback, quiet);
      RunNone(start, callback);
      distributing := true;
      var calls := 0;
      ghost var last, left: nat := 0, 0;
      while ok && available > 0 && pending != []
        invariant Valid() && distributing
        invariant Run(start, callback, calls) == Cursor(Now(), last, left, calls, ok)
        invariant ok && available > 0 && pending != [] ==> left == 0
        invariant calls <= end
        decreases end - calls
      {
        var count := |pending|;
        var share := Share(available, count);
        ghost var first := calls;
        var i := 0;
        while ok && i < count && available > 0 && pending != []
          invariant Valid() && distributing && i <= count && first + i == calls <= end
          invariant i == 0 ==> ok && available > 0 && |pending| == count && share == Share(available, count)
          invariant Run(start, callback, calls)
                 == Cursor(Now(), if i == 0 then last else share, if i == 0 then 0 else count - i, calls, ok)
          decreases count - i
        {
          ghost var c := Run(start, callback, calls);
          RunOn(start, callback, calls);
          NextKeeps(c, callback);
          assert calls < end;
          GrantHead(share);
          ok := OnGrant(callback(calls));
          calls := calls + 1;
          i := i + 1;
        }
        last, left := share, count - i;
      }
      distributing := false;
      HasSettled(start, callback, calls);
      if closed {
        RunCloses(start, callback, calls);
      }
      if Calm(callback) {
        SettlesFairly(start, callback, Outcome(Now(), ok));
      }
    }

    /** A grant callback at work: it runs while the pool is distributing, on a valid pool,
        and stops at the first error it does not catch. */
    method OnGrant(ops: seq<Attempt>) returns (ok: bool)
      requires Valid() && distributing
      modifies this
      ensures Valid() && distributing
      ensures Outcome(Now(), ok) == Obeyed(old(Now()), ops)
      decreases 0, 3
    {
      hide Lawful, Applied;
      ok := true;
      var k := 0;
      while ok && k < |ops|
        invariant Valid() && distributing && k <= |ops|
        invariant Outcome(Now(), ok) == Obeyed(old(Now()), ops[..k])
      {
        assert ops[..k + 1][..k] == ops[..k];
        ok := Call(ops[k].op);
        ok := ok || ops[k].caught;
        k := k + 1;
      }
      StaysThrown(old(Now()), ops, k);
    }

    method Call(op: Op) returns (ok: bool)
      requires Valid() && distributing
      modifies this
      ensures Valid() && distributing
      ensures Outcome(Now(), ok) == Applied(old(Now()), op)
      decreases 0, 2
    {
      hide Lawful;
      ok := true;
      match op
      case AddLeg(o) => ok := Add(o);
      case DemandCells(o, n, tooSoon) => ok := Demand(o, n, tooSoon, NO_CALLBACK, 0);
      case SentCells(o, n) => ok := Sent(o, n);
      case ReturnedCells(n) => ok := Returned(n, NO_CALLBACK, 0);
      case ReleaseCells(o, n) => ok := Release(o, n, NO_CALLBACK, 0);
      case CancelDemand(o) => Cancel(o);
      case RemoveLeg(o) => ok := Remove(o, NO_CALLBACK, 0);
      case DestroyPool => Destroy();
    }

    /** `demand`: refused without effect, or queued and distributed; zero cancels. */
    method Demand(owner: Owner, amount: nat, tooSoon: bool, callback: nat -> seq<Attempt>, ghost quiet: nat) returns (ok: bool)
      requires Valid() && QuietFrom(callback, quiet)
      modifies this
      ensures Valid() && distributing == old(distributing)
      ensures ComesTo(old(Now()), DemandCells(owner, amount, tooSoon), old(distributing), callback, Outcome(Now(), ok))
      ensures var valid := owner in old(legs) && !old(closed) && DemandFits(old(legs)[owner], amount, tooSoon);
        && (!valid ==> !ok && unchanged(this))
        && (valid && amount == 0 ==>
              ok && Withdrew(old(Now()), Now(), owner))
        && (valid && amount > 0 ==>
              var s := Asked(old(Now()), owner, amount);
              if old(distributing) then ok && Now() == s else
                && Settles(s, callback, Outcome(Now(), ok))
                && (Calm(callback) ==> ok && inFlight == old(inFlight) && Distributed(s.legs, legs, available)))
      decreases if distributing then 0 else 1, 1
    {
      hide Lawful, Settles;
      AppliedKeeps(Now(), DemandCells(owner, amount, tooSoon));
      if owner in legs {
        DemandIsFit(legs[owner], amount, tooSoon);
      }
      if owner !in legs || closed || !MayDemand(legs[owner], amount, tooSoon) {
        return false;
      }
      if amount == 0 {
        Cancel(owner);
        return true;
      }
      legs := legs[owner := Demanded(legs[owner], amount)];
      pending := pending + [owner];
      ok := Distribute(callback, quiet);
    }

    /** `returned`: the peer has consumed cells that were in flight. */
    method Returned(amount: nat, callback: nat -> seq<Attempt>, ghost quiet: nat) returns (ok: bool)
      requires Valid() && QuietFrom(callback, quiet)
      modifies this
      ensures Valid() && distributing == old(distributing)
      ensures ComesTo(old(Now()), ReturnedCells(amount), old(distributing), callback, Outcome(Now(), ok))
      ensures var valid := !old(closed) && 1 <= amount <= old(inFlight);
        && (!valid ==> !ok && unchanged(this))
        && (valid ==>
              var s := State(old(available) + amount, old(inFlight) - amount, old(legs), old(pending), false);
              if old(distributing) then ok && Now() == s else
                && Settles(s, callback, Outcome(Now(), ok))
                && (Calm(callback) ==> ok && inFlight == old(inFlight) - amount && Distributed(old(legs), legs, available)))
      decreases if distributing then 0 else 1, 1
    {
      hide Lawful, Settles;
      AppliedKeeps(Now(), ReturnedCells(amount));
      if closed || amount < 1 || amount > inFlight {
        return false;
      }
      inFlight := inFlight - amount;
      available := available + amount;
      ok := Distribute(callback, quiet);
    }

    /** `release`: a leg gives unspent credit back. */
    method Release(owner: Owner, amount: nat, callback: nat -> seq<Attempt>, ghost quiet: nat) returns (ok: bool)
      requires Valid() && QuietFrom(callback, quiet)
      modifies this
      ensures Valid() && distributing == old(distributing)
      ensures ComesTo(old(Now()), ReleaseCells(owner, amount), old(distributing), callback, Outcome(Now(), ok))
      ensures var valid := owner in old(legs) && !old(closed) && 1 <= amount <= old(legs)[owner].granted;
        && (!valid ==> !ok && unchanged(this))
        && (valid ==>
              var leg := old(legs)[owner];
              var s := State(old(available) + amount, old(inFlight), old(legs)[owner := leg.(granted := leg.granted - amount)],
                             old(pending), false);
              if old(distributing) then ok && Now() == s else
                && Settles(s, callback, Outcome(Now(), ok))
                && (Calm(callback) ==> ok && inFlight == old(inFlight) && Distributed(s.legs, legs, available)))
      decreases if distributing then 0 else 1, 1
    {
      hide Lawful, Settles;
      AppliedKeeps(Now(), ReleaseCells(owner, amount));
      if owner !in legs || closed || amount < 1 || amount > legs[owner].granted {
        return false;
      }
      legs := legs[owner := PoolLeg.Returned(legs[owner], amount)];
      available := available + amount;
      ok := Distribute(callback, quiet);
    }

    /** `remove`: the leg is gone, what it held is free again. */
    method Remove(owner: Owner, callback: nat -> seq<Attempt>, ghost quiet: nat) returns (ok: bool)
      requires Valid() && QuietFrom(callback, quiet)
      modifies this
      ensures Valid() && distributing == old(distributing)
      ensures ComesTo(old(Now()), RemoveLeg(owner), old(distributing), callback, Outcome(Now(), ok))
      ensures owner !in old(legs) ==> ok && unchanged(this)
      ensures owner in old(legs) ==>
        var s := State(old(available) + old(legs)[owner].granted, old(inFlight), old(legs) - {owner},
                       Without(old(pending), owner), old(closed));
        if old(distributing) then ok && Now() == s else
          && Settles(s, callback, Outcome(Now(), ok))
          && (Calm(callback) ==> ok && inFlight == old(inFlight) && Distributed(s.legs, legs, available))
      decreases if distributing then 0 else 1, 1
    {
      hide QueueExact, SumOver, Settles;
      if owner !in legs {
        return true;
      }
      Drop(owner);
      ok := Distribute(callback, quiet);
    }

    /** The leg leaves the queue and the pool, and its unspent grant comes back. */
    method Drop(owner: Owner)
      requires Valid() && owner in legs
      modifies this`legs, this`pending, this`available
      ensures Valid() && Outcome(Now(), true) == Applied(old(Now()), RemoveLeg(owner))
    {
      hide Lawful;
      AppliedKeeps(Now(), RemoveLeg(owner));
      var held := legs[owner].granted;
      Cancel(owner);
      legs := legs - {owner};
      assert legs == old(legs) - {owner};
      available := available + held;
    }
  }

  const NO_CALLBACK: nat -> seq<Attempt> := (k: nat) => []

  /** After the operation that threw, a callback does nothing more. */
  lemma {:induction false} StaysThrown(s: State, ops: seq<Attempt>, k: nat)
    requires k <= |ops| && (!Obeyed(s, ops[..k]).ok || k == |ops|)
    ensures Obeyed(s, ops) == Obeyed(s, ops[..k])
    decreases |ops|
  {
    if k == |ops| {
      assert ops[..k] == ops;
    } else {
      var early := ops[..|ops| - 1];
      assert early[..k] == ops[..k];
      StaysThrown(s, early, k);
    }
  }

  /** Serving the head and queueing it again while unsatisfied keeps the queue exact. */
  lemma HeadServed(legs: map<Owner, Leg>, queue: seq<Owner>, amount: nat)
    requires QueueExact(legs, queue) && queue != [] && queue[0] in legs && amount <= legs[queue[0]].wanted
    ensures var o := queue[0];
      var legs' := legs[o := Granted(legs[o], amount)];
      QueueExact(legs', queue[1..] + (if legs'[o].wanted > 0 then [o] else []))
  {
    var o := queue[0];
    assert forall j :: 0 <= j < |queue| - 1 ==> queue[1..][j] == queue[j + 1];
    assert o !in queue[1..];
    assert forall p :: p in queue <==> p == o || p in queue[1..];
  }
}
