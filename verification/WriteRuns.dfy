/**
 Writes of a stream object within whole runs.  An object that stands where its source in a
 run stands, before a write, stands where it stands after it: each turn of the write is a
 few acts of the source, and what reaches the object at an await is whatever else the run
 does meanwhile.
 */
module WriteRuns {
  import opened Frames
  import opened Endpoint
  import opened SharedCircuit
  import opened SourceLeg
  import opened CircuitRuns
  import opened HonestRuns
  import RouteStream
  import Effects

  /** All that a write depends on: whether the stream is live, and its sending half. */
  datatype Half = Half(active: bool, tx: Sender)

  function HalfOf(p: Source): Half
  {
    Half(p.e.phase == Active, p.e.tx)
  }

  // ---- the sending half goes its own way ----

  predicate WritingAct(act: Act)
  {
    act.StartWriting? || act.StopWriting? || act.Poll? || act.Send? || act.Fail?
  }

  lemma PerformHalf(p: Source, q: Source, act: Act)
    requires HalfOf(p) == HalfOf(q) && WritingAct(act)
    ensures Enabled(p.e, act) <==> Enabled(q.e, act)
    ensures Perform(p, act).Took? && Perform(q, act).Took?
    ensures HalfOf(Perform(p, act).source) == HalfOf(Perform(q, act).source)
  {
  }

  lemma AskingHalf(p: Source)
    ensures forall q :: HalfOf(p) == HalfOf(q) ==>
      HalfOf(Request(p)) == HalfOf(Request(q)) && HalfOf(Relinquish(p)) == HalfOf(Relinquish(q))
  {
  }

  lemma ReactHalf(p: Source, q: Source, event: RouteStream.Event)
    requires HalfOf(p) == HalfOf(q)
    ensures HalfOf(RouteStream.React(p, event)) == HalfOf(RouteStream.React(q, event))
  {
    hide Request, Relinquish;
    forall p1: Source {
      AskingHalf(p1);
    }
  }

  lemma {:induction false} ReactedHalf(p: Source, q: Source, events: seq<RouteStream.Event>)
    requires HalfOf(p) == HalfOf(q)
    ensures HalfOf(RouteStream.Reacted(p, events)) == HalfOf(RouteStream.Reacted(q, events))
  {
    hide RouteStream.React;
    if events != [] {
      var n := |events| - 1;
      ReactedHalf(p, q, events[..n]);
      ReactHalf(RouteStream.Reacted(p, events[..n]), RouteStream.Reacted(q, events[..n]), events[n]);
    }
  }

  lemma {:induction false} SendsHalf(p: Source, q: Source, cells: seq<seq<byte>>)
    requires HalfOf(p) == HalfOf(q)
    ensures HalfOf(RouteStream.Sends(p, cells)) == HalfOf(RouteStream.Sends(q, cells))
  {
    hide Perform;
    if cells != [] {
      var n := |cells| - 1;
      SendsHalf(p, q, cells[..n]);
      PerformHalf(RouteStream.Sends(p, cells[..n]), RouteStream.Sends(q, cells[..n]), Send(cells[n]));
    }
  }

  lemma BurstFitsHalf(p: Source, q: Source, left: int, burst: seq<seq<byte>>)
    requires HalfOf(p) == HalfOf(q)
    ensures RouteStream.BurstFits(p, left, burst) <==> RouteStream.BurstFits(q, left, burst)
    ensures HalfOf(RouteStream.Turn(p, burst)) == HalfOf(RouteStream.Turn(q, burst))
  {
    hide Perform, RouteStream.Sends;
    PerformHalf(p, q, Poll);
    var p', q' := RouteStream.Polled(p), RouteStream.Polled(q);
    SendsHalf(p', q', burst);
    forall i | 0 <= i < |burst|
      ensures Enabled(RouteStream.Sends(p', burst[..i]).e, Send(burst[i]))
         <==> Enabled(RouteStream.Sends(q', burst[..i]).e, Send(burst[i]))
    {
      SendsHalf(p', q', burst[..i]);
    }
  }

  lemma {:induction false} CourseHalf(p: Source, q: Source, bursts: seq<seq<seq<byte>>>,
                                      waits: seq<seq<RouteStream.Event>>)
    requires HalfOf(p) == HalfOf(q) && |bursts| == |waits|
    ensures HalfOf(RouteStream.Course(p, bursts, waits)) == HalfOf(RouteStream.Course(q, bursts, waits))
  {
    hide RouteStream.Turn, RouteStream.Reacted;
    if bursts != [] {
      var n := |bursts| - 1;
      var p', q' := RouteStream.Course(p, bursts[..n], waits[..n]), RouteStream.Course(q, bursts[..n], waits[..n]);
      CourseHalf(p, q, bursts[..n], waits[..n]);
      BurstFitsHalf(p', q', 0, bursts[n]);
      ReactedHalf(RouteStream.Turn(p', bursts[n]), RouteStream.Turn(q', bursts[n]), waits[n]);
    }
  }

  // ---- a write seen from a run ----

  /** The run goes on. */
  function After(r: Route, moves: seq<Move>): Route
  {
    if moves == [] then r else MoveOn(After(r, moves[..|moves| - 1]), moves[|moves| - 1])
  }

  lemma {:induction false} AfterBoth(r: Route, a: seq<Move>, b: seq<Move>)
    ensures After(r, a + b) == After(After(r, a), b)
  {
    hide MoveOn;
    if b == [] {
      assert a + b == a;
    } else {
      var n := |b| - 1;
      assert (a + b)[..|a| + n] == a + b[..n];
      AfterBoth(r, a, b[..n]);
    }
  }

  lemma {:induction false} JourneyOn(a: seq<Move>, b: seq<Move>)
    ensures Journey(a + b) == After(Journey(a), b)
  {
    hide MoveOn;
    if b == [] {
      assert a + b == a;
    } else {
      var n := |b| - 1;
      assert (a + b)[..|a| + n] == a + b[..n];
      JourneyOn(a, b[..n]);
    }
  }

  /** A seated, honest, writing source. */
  predicate Writer(r: Route, i: nat)
  {
    Agreement(r) && Honest(r, i) && r.seats[i].source.e.tx.writing
  }

  /** What a move of the run means to the writer of leg i. */
  function EventOf(r: Route, i: nat, move: Move): seq<RouteStream.Event>
    requires Honest(r, i)
  {
    var p := r.seats[i].source;
    if move == Acts(i, Fail) then [RouteStream.Destroyed]
    else if move == Down(i) && p.down != [] then
      match p.down[0]
      case CircuitCredit(n) => [RouteStream.Granted(n)]
      case Demand(_) => [RouteStream.Acknowledged]
      case StreamCredit(n) => [RouteStream.Credited(n)]
      case Reset => [RouteStream.Destroyed]
      case Data(_) => if p.e.rx.remoteEnded then [RouteStream.Destroyed] else []
      case _ => []
    else []
  }

  /** The moves that only the write itself makes. */
  predicate OfWrite(move: Move, i: nat)
  {
    move.Acts? && move.i == i && (move.act.Poll? || move.act.Send? || move.act.StopWriting?)
  }

  /** Hearing a frame is reacting to the event it is. */
  lemma HearIsEvent(r: Route, i: nat)
    requires Writer(r, i) && r.seats[i].source.down != []
    ensures var p := r.seats[i].source;
      Hear(p).Took? && HalfOf(Hear(p).source) == HalfOf(RouteStream.Reacted(p, EventOf(r, i, Down(i))))
  {
    hide LegInv, Inv, Bounded;
    var p, s := r.seats[i].source, r.circuit.slots[i];
    BoundedOf(r, i);
    HearAgrees(EntryRecord(s, r.seats[i]), EntryLeg(s, r.seats[i]), p);
    HeardHalf(p);
    var events := EventOf(r, i, Down(i));
    if events != [] {
      OneEvent(p, events[0]);
    }
  }

  lemma OneEvent(p: Source, event: RouteStream.Event)
    ensures RouteStream.Reacted(p, [event]) == RouteStream.React(p, event)
  {
    assert [event][..0] == [];
    assert RouteStream.Reacted(p, []) == p;
  }

  lemma HeardHalf(p: Source)
    requires p.down != [] && Hear(p).Took?
    ensures var q := Hear(p).source;
      match p.down[0]
      case CircuitCredit(n) => HalfOf(q) == HalfOf(RouteStream.React(p, RouteStream.Granted(n)))
      case Demand(_) => HalfOf(q) == HalfOf(RouteStream.React(p, RouteStream.Acknowledged))
      case StreamCredit(n) => HalfOf(q) == HalfOf(RouteStream.React(p, RouteStream.Credited(n)))
      case Reset => HalfOf(q) == HalfOf(RouteStream.React(p, RouteStream.Destroyed))
      case Data(_) => HalfOf(q) == if p.e.rx.remoteEnded then HalfOf(RouteStream.React(p, RouteStream.Destroyed)) else HalfOf(p)
      case _ => HalfOf(q) == HalfOf(p)
  {
    hide ReturnCircuit;
    var q := p.(down := p.down[1..]);
    match p.down[0]
    case CircuitCredit(n) => ReactHalf(q, p, RouteStream.Granted(n));
    case Demand(_) => ReactHalf(q, p, RouteStream.Acknowledged);
    case StreamCredit(n) => ReactHalf(q, p, RouteStream.Credited(n));
    case _ => ReturnHalf(p);
  }

  lemma ReturnHalf(p: Source)
    ensures forall q: Source, amount: nat, flush: bool :: HalfOf(ReturnCircuit(q, amount, flush)) == HalfOf(q)
  {
  }

  /** Whatever the source does besides writing leaves its sending half alone. */
  lemma ActHalf(p: Source, act: Act)
    requires p.e.tx.writing && Perform(p, act).Took? && !act.Poll? && !act.Send? && !act.StopWriting? && !act.Fail?
    ensures HalfOf(Perform(p, act).source) == HalfOf(p)
  {
    hide ReadNext;
  }

  /** Steps of the middle only add frames to the way down. */
  lemma MiddleHalf(r: Route, i: nat, step: Step)
    requires Agreement(r) && Honest(r, i)
    ensures Honest(MiddleMove(r, step), i) && HalfOf(MiddleMove(r, step).seats[i].source) == HalfOf(r.seats[i].source)
  {
    hide Inv, SeatInv, Next;
    MiddleAgrees(r, step);
  }

  /** Whatever move the run makes, the writer sees it as its events or not at all. */
  lemma MoveIsEvent(r: Route, i: nat, move: Move)
    requires Writer(r, i) && !OfWrite(move, i)
    ensures var r' := MoveOn(r, move);
      && Honest(r', i) && Agreement(r')
      && HalfOf(r'.seats[i].source) == HalfOf(RouteStream.Reacted(r.seats[i].source, EventOf(r, i, move)))
  {
    hide Agreement, EventOf, LegInv;
    var p := r.seats[i].source;
    MoveAgrees(r, move);
    NoEvent(r, i, move);
    match move
    case Middle(step) => MiddleHalf(r, i, step);
    case Stranger => StrangerHalf(r, i);
    case Up(j) => UpHalf(r, i, j);
    case Down(j) => if j == i && p.down != [] { HearIsEvent(r, i); }
    case Acts(j, act) => ActsIsEvent(r, i, j, act);
    case Flushes(j) => ReturnHalf(p);
  }

  lemma NoEvent(r: Route, i: nat, move: Move)
    requires Honest(r, i)
    ensures move != Acts(i, Fail) && (move != Down(i) || r.seats[i].source.down == []) ==> EventOf(r, i, move) == []
    ensures RouteStream.Reacted(r.seats[i].source, []) == r.seats[i].source
  {
  }

  lemma StrangerHalf(r: Route, i: nat)
    requires Honest(r, i)
    ensures Honest(Joined(r, false), i) && Joined(r, false).seats[i] == r.seats[i]
  {
  }

  lemma UpHalf(r: Route, i: nat, j: nat)
    requires Honest(r, i)
    ensures Honest(MoveOn(r, Up(j)), i) && HalfOf(MoveOn(r, Up(j)).seats[i].source) == HalfOf(r.seats[i].source)
  {
    hide FromSource;
  }

  lemma ActsIsEvent(r: Route, i: nat, j: nat, act: Act)
    requires Writer(r, i) && !OfWrite(Acts(j, act), i)
    ensures var r' := MoveOn(r, Acts(j, act));
      && Honest(r', i)
      && HalfOf(r'.seats[i].source) == HalfOf(RouteStream.Reacted(r.seats[i].source, EventOf(r, i, Acts(j, act))))
  {
    hide Agreement, Perform;
    var p := r.seats[i].source;
    NoEvent(r, i, Acts(j, act));
    if j == i {
      ActTaken(r, i, act);
      if act == Fail {
        OneEvent(p, RouteStream.Destroyed);
      } else {
        ActHalf(p, act);
      }
    }
  }

  /** No act of an honest source in a run is rejected. */
  lemma ActTaken(r: Route, i: nat, act: Act)
    requires Agreement(r) && Honest(r, i)
    ensures Perform(r.seats[i].source, act).Took?
    ensures MoveOn(r, Acts(i, act)) == r.(seats := r.seats[i := r.seats[i].(source := Perform(r.seats[i].source, act).source)])
  {
    hide LegInv, Inv, Bounded, Perform;
    var s := r.circuit.slots[i];
    BoundedOf(r, i);
    ActAgrees(EntryRecord(s, r.seats[i]), EntryLeg(s, r.seats[i]), r.seats[i].source, act);
  }

  /** All that reaches the writer of leg i while the run makes these moves. */
  function EventsOf(r: Route, i: nat, moves: seq<Move>): seq<RouteStream.Event>
  {
    var n := |moves| - 1;
    if moves == [] then []
    else EventsOf(r, i, moves[..n])
         + if Honest(After(r, moves[..n]), i) then EventOf(After(r, moves[..n]), i, moves[n]) else []
  }

  predicate NoneOfWrite(moves: seq<Move>, i: nat)
  {
    forall k :: 0 <= k < |moves| ==> !OfWrite(moves[k], i)
  }

  /** An await: the run goes on as it likes, and the writer reacts. */
  lemma {:induction false} AwaitIsEvents(r: Route, i: nat, moves: seq<Move>)
    requires Writer(r, i) && NoneOfWrite(moves, i)
    ensures Writer(After(r, moves), i)
    ensures HalfOf(After(r, moves).seats[i].source)
         == HalfOf(RouteStream.Reacted(r.seats[i].source, EventsOf(r, i, moves)))
  {
    hide Agreement, RouteStream.Reacted, EventOf, MoveOn;
    var p := r.seats[i].source;
    if moves == [] {
      ReactedNone(p);
    } else {
      var n := |moves| - 1;
      var early := moves[..n];
      AwaitIsEvents(r, i, early);
      var r1 := After(r, early);
      var p1 := r1.seats[i].source;
      var events := EventOf(r1, i, moves[n]);
      assert !OfWrite(moves[n], i);
      MoveIsEvent(r1, i, moves[n]);
      ReactedHalf(p1, RouteStream.Reacted(p, EventsOf(r, i, early)), events);
      ReactedBoth(p, EventsOf(r, i, early), events);
      ReactedWrites(p, EventsOf(r, i, moves));
    }
  }

  lemma ReactedNone(p: Source)
    ensures RouteStream.Reacted(p, []) == p
  {
  }

  lemma {:induction false} ReactedBoth(p: Source, a: seq<RouteStream.Event>, b: seq<RouteStream.Event>)
    ensures RouteStream.Reacted(p, a + b) == RouteStream.Reacted(RouteStream.Reacted(p, a), b)
  {
    hide RouteStream.React;
    if b == [] {
      assert a + b == a;
    } else {
      var n := |b| - 1;
      assert (a + b)[..|a| + n] == a + b[..n];
      ReactedBoth(p, a, b[..n]);
    }
  }

  /** No event ends a write. */
  lemma {:induction false} ReactedWrites(p: Source, events: seq<RouteStream.Event>)
    ensures RouteStream.Reacted(p, events).e.tx.writing == p.e.tx.writing
    ensures RouteStream.Reacted(p, events).e.tx.written == p.e.tx.written
  {
    hide RouteStream.React;
    if events != [] {
      var n := |events| - 1;
      ReactedWrites(p, events[..n]);
      ReactWrites(RouteStream.Reacted(p, events[..n]), events[n]);
    }
  }

  lemma ReactWrites(p: Source, event: RouteStream.Event)
    ensures RouteStream.React(p, event).e.tx.writing == p.e.tx.writing
    ensures RouteStream.React(p, event).e.tx.written == p.e.tx.written
  {
  }

  /** One turn of a write, as acts of the source. */
  function TurnMoves(i: nat, burst: seq<seq<byte>>): seq<Move>
  {
    if burst == [] then [Acts(i, Poll)]
    else TurnMoves(i, burst[..|burst| - 1]) + [Acts(i, Send(burst[|burst| - 1]))]
  }

  lemma {:induction false} TurnIsMoves(r: Route, i: nat, burst: seq<seq<byte>>)
    requires Agreement(r) && Honest(r, i)
    ensures var r' := After(r, TurnMoves(i, burst));
      && Agreement(r') && Honest(r', i)
      && r' == r.(seats := r.seats[i := r.seats[i].(source := RouteStream.Turn(r.seats[i].source, burst))])
  {
    hide Agreement, Perform, MoveOn;
    var p := r.seats[i].source;
    var moves := TurnMoves(i, burst);
    var n := |moves| - 1;
    if burst == [] {
      assert moves[..n] == [];
      ActTaken(r, i, Poll);
      MoveAgrees(r, Acts(i, Poll));
    } else {
      var early, cell := burst[..|burst| - 1], burst[|burst| - 1];
      TurnIsMoves(r, i, early);
      assert moves[..n] == TurnMoves(i, early);
      var r1 := After(r, moves[..n]);
      ActTaken(r1, i, Send(cell));
      MoveAgrees(r1, Acts(i, Send(cell)));
    }
  }

  lemma {:induction false} TurnWrites(p: Source, burst: seq<seq<byte>>)
    ensures RouteStream.Turn(p, burst).e.tx.writing == p.e.tx.writing
  {
    if burst != [] {
      TurnWrites(p, burst[..|burst| - 1]);
    }
  }

  /** A write and all that the run does at its awaits. */
  function WriteMoves(i: nat, bursts: seq<seq<seq<byte>>>, gaps: seq<seq<Move>>): seq<Move>
    requires |gaps| == |bursts|
  {
    var n := |bursts| - 1;
    if bursts == [] then [] else WriteMoves(i, bursts[..n], gaps[..n]) + TurnMoves(i, bursts[n]) + gaps[n]
  }

  /** What reaches the writer at each await. */
  function WaitsOf(r: Route, i: nat, bursts: seq<seq<seq<byte>>>, gaps: seq<seq<Move>>): (waits: seq<seq<RouteStream.Event>>)
    requires |gaps| == |bursts|
    ensures |waits| == |bursts|
  {
    var n := |bursts| - 1;
    if bursts == [] then []
    else WaitsOf(r, i, bursts[..n], gaps[..n])
         + [EventsOf(After(r, WriteMoves(i, bursts[..n], gaps[..n]) + TurnMoves(i, bursts[n])), i, gaps[n])]
  }

  predicate GapsFree(gaps: seq<seq<Move>>, i: nat)
  {
    forall k :: 0 <= k < |gaps| ==> NoneOfWrite(gaps[k], i)
  }

  lemma {:induction false} WriteIsCourse(r: Route, i: nat, bursts: seq<seq<seq<byte>>>, gaps: seq<seq<Move>>)
    requires Writer(r, i) && |gaps| == |bursts| && GapsFree(gaps, i)
    ensures var r' := After(r, WriteMoves(i, bursts, gaps));
      && Writer(r', i)
      && HalfOf(r'.seats[i].source) == HalfOf(RouteStream.Course(r.seats[i].source, bursts, WaitsOf(r, i, bursts, gaps)))
  {
    hide Agreement, RouteStream.Turn, RouteStream.Reacted, NoneOfWrite, EventsOf;
    if bursts != [] {
      var n := |bursts| - 1;
      var p := r.seats[i].source;
      WriteIsCourse(r, i, bursts[..n], gaps[..n]);
      var moves := WriteMoves(i, bursts[..n], gaps[..n]);
      var waits := WaitsOf(r, i, bursts, gaps);
      assert waits[..n] == WaitsOf(r, i, bursts[..n], gaps[..n]);
      var q := RouteStream.Course(p, bursts[..n], waits[..n]);
      var r1 := After(r, moves);
      TurnIsMoves(r1, i, bursts[n]);
      AfterBoth(r, moves, TurnMoves(i, bursts[n]));
      TurnWrites(r1.seats[i].source, bursts[n]);
      var r2 := After(r1, TurnMoves(i, bursts[n]));
      AwaitIsEvents(r2, i, gaps[n]);
      AfterBoth(r, moves + TurnMoves(i, bursts[n]), gaps[n]);
      BurstFitsHalf(r1.seats[i].source, q, 0, bursts[n]);
      ReactedHalf(r2.seats[i].source, RouteStream.Turn(q, bursts[n]), waits[n]);
    }
  }

  /** The bytes that a course writes. */
  lemma {:induction false} CourseWrites(p: Source, data: seq<byte>, bursts: seq<seq<seq<byte>>>,
                                        waits: seq<seq<RouteStream.Event>>)
    requires |waits| == |bursts| && RouteStream.BurstsFit(p, data, bursts, waits)
    ensures RouteStream.Course(p, bursts, waits).e.tx.written == p.e.tx.written + Flat(Gathered(bursts))
  {
    hide RouteStream.Turn, RouteStream.Reacted, RouteStream.BurstFits, Flat;
    if bursts == [] {
      RouteStream.NoneYet(p);
    } else {
      var n := |bursts| - 1;
      RouteStream.BurstsFitShorter(p, data, bursts[..n], waits, n);
      CourseWrites(p, data, bursts[..n], waits[..n]);
      var q := RouteStream.Course(p, bursts[..n], waits[..n]);
      BurstWrites(q, |data| - |Flat(Gathered(bursts[..n]))|, bursts[n]);
      ReactedWrites(RouteStream.Turn(q, bursts[n]), waits[n]);
      FlatConcat(Gathered(bursts[..n]), bursts[n]);
      assert p.e.tx.written + Flat(Gathered(bursts[..n])) + Flat(bursts[n])
          == p.e.tx.written + (Flat(Gathered(bursts[..n])) + Flat(bursts[n]));
    }
  }

  lemma BurstWrites(p: Source, left: int, burst: seq<seq<byte>>)
    requires RouteStream.BurstFits(p, left, burst)
    ensures RouteStream.Turn(p, burst).e.tx.written == p.e.tx.written + Flat(burst)
  {
    hide RouteStream.Sends, RouteStream.Sendable, Flat;
    SendsWrite(RouteStream.Polled(p), burst);
  }

  lemma {:induction false} SendsWrite(p: Source, cells: seq<seq<byte>>)
    requires RouteStream.Sendable(p, cells)
    ensures RouteStream.Sends(p, cells).e.tx.written == p.e.tx.written + Flat(cells)
  {
    hide RouteStream.Sends, RouteStream.Sendable, Flat;
    if cells == [] {
      RouteStream.NoneYet(p);
    } else {
      var n := |cells| - 1;
      RouteStream.SendableShorter(p, cells, n);
      SendsWrite(p, cells[..n]);
      RouteStream.LastSent(p, cells);
      FlatAppend(cells[..n], cells[n]);
      assert cells[..n] + [cells[n]] == cells;
      assert p.e.tx.written + Flat(cells[..n]) + cells[n] == p.e.tx.written + (Flat(cells[..n]) + cells[n]);
    }
  }

  /** A write in a run.  The object `o` stands where the source of leg i stands, and writes
      `data` in these bursts; the run makes the same acts, and between them whatever moves it
      likes.  Then the object, told what reached the source at each await, stands where the
      source stands; the source's history has grown by exactly the cells; nothing on the leg
      is rejected. */
  lemma {:induction false} WriteInEveryRun(moves: seq<Move>, i: nat, o: Source, data: seq<byte>, bursts: seq<seq<seq<byte>>>,
                        gaps: seq<seq<Move>>)
    requires Honest(Journey(moves), i) && HalfOf(o) == HalfOf(Journey(moves).seats[i].source)
    requires Enabled(o.e, StartWriting) && |gaps| == |bursts| && GapsFree(gaps, i)
    requires var r := Journey(moves + [Acts(i, StartWriting)]);
      RouteStream.BurstsFit(RouteStream.SetWriting(o, true), data, bursts, WaitsOf(r, i, bursts, gaps))
    ensures var r := Journey(moves + [Acts(i, StartWriting)]);
      var r' := Journey(moves + [Acts(i, StartWriting)] + WriteMoves(i, bursts, gaps));
      && !r'.rejected && Honest(r', i)
      && HalfOf(r'.seats[i].source)
         == HalfOf(RouteStream.Course(RouteStream.SetWriting(o, true), bursts, WaitsOf(r, i, bursts, gaps)))
      && r'.seats[i].source.e.tx.written == o.e.tx.written + Flat(Gathered(bursts))
  {
    hide Inv, LegInv, Perform, RouteStream.BurstsFit, RouteStream.Course, WriteMoves, WaitsOf;
    var started := moves + [Acts(i, StartWriting)];
    var r0, r := Journey(moves), Journey(started);
    var p := r0.seats[i].source;
    var start := RouteStream.SetWriting(o, true);
    assert started[..|moves|] == moves;
    JourneyAgrees(moves);
    JourneyAgrees(started);
    ActTaken(r0, i, StartWriting);
    PerformHalf(p, o, StartWriting);
    Starting(p);
    JourneyOn(started, WriteMoves(i, bursts, gaps));
    WriteIsCourse(r, i, bursts, gaps);
    var waits := WaitsOf(r, i, bursts, gaps);
    CourseHalf(r.seats[i].source, start, bursts, waits);
    CourseWrites(start, data, bursts, waits);
    JourneyAgrees(started + WriteMoves(i, bursts, gaps));
  }

  lemma Starting(p: Source)
    requires Enabled(p.e, StartWriting)
    ensures Perform(p, StartWriting) == Took(RouteStream.SetWriting(p, true))
  {
  }

  // ---- a writer that waits has asked ----

  lemma LastSpends(p: Source, cells: seq<seq<byte>>)
    requires RouteStream.Sendable(p, cells) && cells != []
    ensures var was, now := RouteStream.Sends(p, cells[..|cells| - 1]).e, RouteStream.Sends(p, cells).e;
      && was.tx.sendCredit > 0 && was.tx.circuitCredit > 0 && now.phase == was.phase
      && now.tx == was.tx.(sendCredit := was.tx.sendCredit - 1, circuitCredit := was.tx.circuitCredit - 1,
                           written := now.tx.written)
  {
  }

  /** Sending uses up credit and nothing else. */
  lemma {:induction false} SendsSpend(p: Source, cells: seq<seq<byte>>)
    requires RouteStream.Sendable(p, cells)
    ensures var q := RouteStream.Sends(p, cells);
      && |cells| <= p.e.tx.sendCredit && |cells| <= p.e.tx.circuitCredit && q.e.phase == p.e.phase
      && q.e.tx == p.e.tx.(sendCredit := p.e.tx.sendCredit - |cells|, circuitCredit := p.e.tx.circuitCredit - |cells|,
                           written := q.e.tx.written)
  {
    hide RouteStream.Sends, RouteStream.Sendable;
    if cells == [] {
      RouteStream.NoneYet(p);
    } else {
      var n := |cells| - 1;
      RouteStream.SendableShorter(p, cells, n);
      SendsSpend(p, cells[..n]);
      LastSpends(p, cells);
    }
  }

  /** A turn of a live writer leaves it with credit, or having asked for some. */
  lemma TurnAsks(p: Source, burst: seq<seq<byte>>)
    requires Enabled(p.e, Poll) && RouteStream.Sendable(RouteStream.Polled(p), burst) && |burst| <= 64
    ensures Effects.Asks(RouteStream.Turn(p, burst).e.tx)
  {
    hide RouteStream.Sends, RouteStream.Sendable, Perform;
    PerformHalf(p, p, Poll);
    Effects.SourceActs(p, Poll);
    SendsSpend(RouteStream.Polled(p), burst);
  }

  lemma ReactAsks(p: Source, event: RouteStream.Event)
    requires Effects.Asks(p.e.tx)
    ensures Effects.Asks(RouteStream.React(p, event).e.tx)
  {
  }

  lemma {:induction false} ReactedAsks(p: Source, events: seq<RouteStream.Event>)
    requires Effects.Asks(p.e.tx)
    ensures Effects.Asks(RouteStream.Reacted(p, events).e.tx)
  {
    hide RouteStream.React, Effects.Asks;
    if events != [] {
      var n := |events| - 1;
      ReactedAsks(p, events[..n]);
      ReactAsks(RouteStream.Reacted(p, events[..n]), events[n]);
    }
  }

  /** Credit asked for is on its way: a demand or a cancellation is under way, or the pool
      owes some, or it is being granted. */
  predicate CreditIsComing(s: Slot, p: Source)
  {
    Total(Wanted, p.up) > 0 || s.leg.wanted > 0 || Total(CircuitGrant, p.down) > 0
    || Total(Cancels, p.up) + Total(Cancels, p.down) > 0
  }

  lemma AskedIsComing(s: Slot, seat: Seat)
    requires SeatInv(s, seat) && seat.honest && s.rec.live && seat.source.e.phase == Active
    requires Effects.Asks(seat.source.e.tx) && seat.source.e.tx.writing
    ensures seat.source.e.tx.sendCredit > 0 && seat.source.e.tx.circuitCredit == 0 ==> CreditIsComing(s, seat.source)
  {
    hide Total, LegInv;
    SeatMatched(s, seat);
    WritersGoOn(s, seat);
  }

  lemma WritersGoOn(s: Slot, seat: Seat)
    requires SeatInv(s, seat) && seat.honest && seat.source.e.tx.writing
    ensures !seat.source.e.tx.ended
  {
    hide Total, NoneAfter, SpentAfterDemand, Clean, Credits, Windows, Dialogue;
  }

  /** In every run with honest and dishonest sources: after a turn of a write, however it
      polled and sent, and whatever else the run does since, a writer on a live leg that has
      stream credit and no circuit credit has credit coming. */
  lemma {:induction false} WaitingWriterAsks(moves: seq<Move>, i: nat, burst: seq<seq<byte>>, rest: seq<Move>)
    requires Honest(Journey(moves), i) && Enabled(Journey(moves).seats[i].source.e, Poll)
    requires RouteStream.Sendable(RouteStream.Polled(Journey(moves).seats[i].source), burst) && |burst| <= 64
    requires NoneOfWrite(rest, i)
    ensures var r := Journey(moves + TurnMoves(i, burst) + rest);
      Honest(r, i) && var s, p := r.circuit.slots[i], r.seats[i].source;
      s.rec.live && p.e.phase == Active && p.e.tx.sendCredit > 0 && p.e.tx.circuitCredit == 0 ==> CreditIsComing(s, p)
  {
    hide Inv, LegInv, SeatInv, Perform, TurnMoves, EventsOf, RouteStream.Turn, RouteStream.Reacted, RouteStream.Sendable, NoneOfWrite,
         CreditIsComing, Effects.Asks, MoveOn;
    var r0 := Journey(moves);
    var p0 := r0.seats[i].source;
    var turned := moves + TurnMoves(i, burst);
    JourneyAgrees(moves);
    TurnIsMoves(r0, i, burst);
    JourneyOn(moves, TurnMoves(i, burst));
    TurnAsks(p0, burst);
    TurnWrites(p0, burst);
    var r1 := Journey(turned);
    AwaitIsEvents(r1, i, rest);
    ReactedAsks(r1.seats[i].source, EventsOf(r1, i, rest));
    JourneyOn(turned, rest);
    var r := Journey(turned + rest);
    assert Effects.Asks(r.seats[i].source.e.tx);
    assert SeatInv(r.circuit.slots[i], r.seats[i]);
    if r.circuit.slots[i].rec.live && r.seats[i].source.e.phase == Active {
      AskedIsComing(r.circuit.slots[i], r.seats[i]);
    }
  }
}
