/**
 The sending half of a logical route stream that owns its leg, as the object it is: credit
 counters updated in place and frames handed to the link.  Every method refines the
 transition of the honest source of the same kind.
 */
module RouteStream {
  import opened Limits
  import opened Frames
  import Endpoint
  import SourceLeg

  /** The source after sending these cells, one `Send` act each. */
  ghost function Sends(p: SourceLeg.Source, cells: seq<seq<byte>>): SourceLeg.Source
  {
    if cells == [] then p
    else
      var q := SourceLeg.Perform(Sends(p, cells[..|cells| - 1]), Endpoint.Send(cells[|cells| - 1]));
      if q.Took? then q.source else p
  }

  /** Each of these cells may be sent when its turn comes. */
  ghost predicate Sendable(p: SourceLeg.Source, cells: seq<seq<byte>>)
  {
    forall i :: 0 <= i < |cells| ==> Endpoint.Enabled(Sends(p, cells[..i]).e, Endpoint.Send(cells[i]))
  }

  /** Cells needed for n bytes. */
  function CellsFor(n: nat): nat
  {
    (n + MAX_LOGICAL_PAYLOAD - 1) / MAX_LOGICAL_PAYLOAD
  }

  /** How many cells one turn sends when n bytes are left. */
  function Burst(n: nat, sendCredit: nat, circuitCredit: nat): nat
  {
    Min(Min(SEND_BATCH_CELLS, CellsFor(n)), Min(sendCredit, circuitCredit))
  }

  lemma OneMore(p: SourceLeg.Source, cells: seq<seq<byte>>, cell: seq<byte>)
    requires Sendable(p, cells) && Endpoint.Enabled(Sends(p, cells).e, Endpoint.Send(cell))
    ensures Sendable(p, cells + [cell])
    ensures SourceLeg.Perform(Sends(p, cells), Endpoint.Send(cell)) == SourceLeg.Took(Sends(p, cells + [cell]))
  {
    var more := cells + [cell];
    assert more[..|cells|] == cells;
    forall i | 0 <= i < |more|
      ensures Endpoint.Enabled(Sends(p, more[..i]).e, Endpoint.Send(more[i]))
    {
      if i < |cells| {
        assert more[..i] == cells[..i] && more[i] == cells[i];
      }
    }
  }

  /** What can reach a stream at an await, and how a write can stand. */
  datatype Event = Granted(amount: nat) | Acknowledged | Credited(amount: nat) | Destroyed

  datatype Ending = Complete | Failed | Waiting

  /** What an event does to the source; a frame it must refuse destroys it. */
  function React(p: SourceLeg.Source, event: Event): SourceLeg.Source
  {
    var r :=
      match event
      case Granted(n) => SourceLeg.HearGrant(p, n)
      case Acknowledged => SourceLeg.HearAck(p)
      case Credited(n) => SourceLeg.HearStreamCredit(p, n)
      case Destroyed => SourceLeg.Rejected;
    if r.Took? then r.source else SourceLeg.Perform(p, Endpoint.Fail).source
  }

  function Reacted(p: SourceLeg.Source, events: seq<Event>): SourceLeg.Source
  {
    if events == [] then p else React(Reacted(p, events[..|events| - 1]), events[|events| - 1])
  }

  function SetWriting(p: SourceLeg.Source, writing: bool): SourceLeg.Source
  {
    p.(e := p.e.(tx := p.e.tx.(writing := writing)))
  }

  function Polled(p: SourceLeg.Source): SourceLeg.Source
  {
    SourceLeg.Perform(p, Endpoint.Poll).source
  }

  /** One turn of a write: a poll, then a burst of cells. */
  ghost function Turn(p: SourceLeg.Source, burst: seq<seq<byte>>): SourceLeg.Source
  {
    Sends(Polled(p), burst)
  }

  /** Turns, each followed by what reached the source at the await behind it. */
  ghost function Course(p: SourceLeg.Source, bursts: seq<seq<seq<byte>>>, waits: seq<seq<Event>>): SourceLeg.Source
    requires |waits| == |bursts|
  {
    var n := |bursts| - 1;
    if bursts == [] then p else Reacted(Turn(Course(p, bursts[..n], waits[..n]), bursts[n]), waits[n])
  }

  /** Where a write stands: behind its last await, or still in it. */
  ghost function Stands(p: SourceLeg.Source, bursts: seq<seq<seq<byte>>>, waits: seq<seq<Event>>): SourceLeg.Source
    requires |bursts| <= |waits| + 1
  {
    var n := |waits|;
    if |bursts| > n then Turn(Course(p, bursts[..n], waits), bursts[n]) else Course(p, bursts, waits[..|bursts|])
  }

  /** A live source with `left` bytes to write sends this burst: as many cells as credit and
      the batch allow, each permitted. */
  ghost predicate BurstFits(p: SourceLeg.Source, left: int, burst: seq<seq<byte>>)
  {
    && p.e.phase == Endpoint.Active && left > 0 && Sendable(Polled(p), burst)
    && |burst| == Burst(left, Polled(p).e.tx.sendCredit, Polled(p).e.tx.circuitCredit)
  }

  ghost predicate BurstsFit(p: SourceLeg.Source, data: seq<byte>, bursts: seq<seq<seq<byte>>>, waits: seq<seq<Event>>)
    requires |bursts| <= |waits| + 1
  {
    var n := |bursts| - 1;
    bursts == [] ||
    (&& BurstsFit(p, data, bursts[..n], waits)
     && BurstFits(Course(p, bursts[..n], waits[..n]), |data| - |Flat(Gathered(bursts[..n]))|, bursts[n]))
  }

  /** One more turn of a write. */
  lemma TurnTaken(p: SourceLeg.Source, data: seq<byte>, bursts: seq<seq<seq<byte>>>, waits: seq<seq<Event>>,
                  burst: seq<seq<byte>>)
    requires |bursts| <= |waits| && BurstsFit(p, data, bursts, waits)
    requires BurstFits(Course(p, bursts, waits[..|bursts|]), |data| - |Flat(Gathered(bursts))|, burst)
    ensures BurstsFit(p, data, bursts + [burst], waits) && Gathered(bursts + [burst]) == Gathered(bursts) + burst
    ensures Flat(Gathered(bursts + [burst])) == Flat(Gathered(bursts)) + Flat(burst)
    ensures |bursts| < |waits| ==>
      Course(p, bursts + [burst], waits[..|bursts| + 1])
      == Reacted(Turn(Course(p, bursts, waits[..|bursts|]), burst), waits[|bursts|])
    ensures |bursts| == |waits| ==> Stands(p, bursts + [burst], waits) == Turn(Course(p, bursts, waits), burst)
  {
    hide Turn, Reacted, Flat, BurstFits;
    var more, n := bursts + [burst], |bursts|;
    assert more[..n] == bursts && waits[..|waits|] == waits;
    FlatConcat(Gathered(bursts), burst);
    if n < |waits| {
      assert waits[..n + 1][..n] == waits[..n];
    }
  }

  /** So far the cells of a write are fragments of the data, in order, up to this offset. */
  ghost predicate WrittenTo(p: SourceLeg.Source, data: seq<byte>, bursts: seq<seq<seq<byte>>>, waits: seq<seq<Event>>,
                            offset: nat)
    requires |bursts| <= |waits| + 1
  {
    && BurstsFit(p, data, bursts, waits) && offset <= |data|
    && Flat(Gathered(bursts)) == data[..offset] && FullCells(Gathered(bursts))
  }

  lemma WrittenMore(p: SourceLeg.Source, data: seq<byte>, bursts: seq<seq<seq<byte>>>, waits: seq<seq<Event>>,
                    offset: nat, burst: seq<seq<byte>>, next: nat)
    requires |bursts| <= |waits| && WrittenTo(p, data, bursts, waits, offset) && offset <= next <= |data|
    requires BurstFits(Course(p, bursts, waits[..|bursts|]), |data| - offset, burst)
    requires Flat(burst) == data[offset..next] && FullCells(burst)
    ensures WrittenTo(p, data, bursts + [burst], waits, next)
    ensures Flat(Gathered(bursts + [burst])) == Flat(Gathered(bursts)) + Flat(burst)
    ensures |bursts| < |waits| ==>
      Course(p, bursts + [burst], waits[..|bursts| + 1])
      == Reacted(Turn(Course(p, bursts, waits[..|bursts|]), burst), waits[|bursts|])
    ensures |bursts| == |waits| ==> Stands(p, bursts + [burst], waits) == Turn(Course(p, bursts, waits), burst)
  {
    hide Course, BurstFits, BurstsFit, Gathered, Flat, FullCells, Reacted, Turn, Stands;
    TurnTaken(p, data, bursts, waits, burst);
    FullConcat(Gathered(bursts), burst);
    Adjoining(data, 0, offset, next);
  }

  lemma HasStood(p: SourceLeg.Source, bursts: seq<seq<seq<byte>>>, waits: seq<seq<Event>>)
    requires |bursts| <= |waits|
    ensures Stands(p, bursts, waits) == Course(p, bursts, waits[..|bursts|])
  {
  }

  lemma NoTurns(p: SourceLeg.Source, data: seq<byte>, waits: seq<seq<Event>>)
    ensures WrittenTo(p, data, [], waits, 0) && Course(p, [], waits[..0]) == p && Flat(Gathered([])) == []
  {
  }

  // ---- bytes under way ----

  lemma SendableShorter(p: SourceLeg.Source, cells: seq<seq<byte>>, n: nat)
    requires Sendable(p, cells) && n <= |cells|
    ensures Sendable(p, cells[..n])
  {
    hide Sends;
    forall i | 0 <= i < n ensures Endpoint.Enabled(Sends(p, cells[..n][..i]).e, Endpoint.Send(cells[..n][i])) {
      assert cells[..n][..i] == cells[..i];
    }
  }

  lemma LastSent(p: SourceLeg.Source, cells: seq<seq<byte>>)
    requires Sendable(p, cells) && cells != []
    ensures Sends(p, cells).up == Sends(p, cells[..|cells| - 1]).up + [Data(cells[|cells| - 1])]
    ensures Sends(p, cells).e.tx.written == Sends(p, cells[..|cells| - 1]).e.tx.written + cells[|cells| - 1]
  {
  }

  lemma DataBytes(up: seq<Frame>, cell: seq<byte>)
    ensures Bytes(up + [Data(cell)]) == Bytes(up) + cell
  {
    BytesConcat(up, [Data(cell)]);
    assert Bytes([Data(cell)]) == cell;
  }

  lemma {:induction false} SendsCarry(p: SourceLeg.Source, cells: seq<seq<byte>>)
    requires Sendable(p, cells)
    ensures Bytes(Sends(p, cells).up) == Bytes(p.up) + Flat(cells)
  {
    hide Sends, Sendable, Flat, Bytes;
    if cells == [] {
      NoneYet(p);
    } else {
      var n := |cells| - 1;
      SendableShorter(p, cells, n);
      SendsCarry(p, cells[..n]);
      LastSent(p, cells);
      DataBytes(Sends(p, cells[..n]).up, cells[n]);
      FlatAppend(cells[..n], cells[n]);
      assert cells[..n] + [cells[n]] == cells;
      assert Bytes(p.up) + Flat(cells[..n]) + cells[n] == Bytes(p.up) + (Flat(cells[..n]) + cells[n]);
    }
  }

  /** Frames without payload. */
  lemma NoBytes(up: seq<Frame>, f: Frame)
    requires !f.Data?
    ensures Bytes(up + [f]) == Bytes(up)
  {
    BytesConcat(up, [f]);
    assert Bytes([f]) == [];
  }

  lemma AskingCarries(p: SourceLeg.Source)
    ensures Bytes(SourceLeg.Request(p).up) == Bytes(p.up) && Bytes(SourceLeg.Relinquish(p).up) == Bytes(p.up)
  {
    forall up: seq<Frame>, f: Frame | !f.Data? ensures Bytes(up + [f]) == Bytes(up) {
      NoBytes(up, f);
    }
  }

  lemma {:induction false} ReactedCarries(p: SourceLeg.Source, events: seq<Event>)
    ensures Bytes(Reacted(p, events).up) == Bytes(p.up)
  {
    if events != [] {
      var n := |events| - 1;
      ReactedCarries(p, events[..n]);
      ReactCarries(Reacted(p, events[..n]), events[n]);
    }
  }

  lemma ReactCarries(p: SourceLeg.Source, event: Event)
    ensures Bytes(React(p, event).up) == Bytes(p.up)
  {
    hide SourceLeg.Request, SourceLeg.Relinquish, Bytes;
    var t := p.e.tx;
    match event
    case Granted(n) =>
      AskingCarries(p.(e := p.e.(tx := t.(circuitRequested := if n <= t.circuitRequested then t.circuitRequested - n else 0,
                                          circuitCredit := t.circuitCredit + n))));
    case Acknowledged =>
      AskingCarries(p.(e := p.e.(tx := t.(circuitCanceling := false, circuitRequested := 0))));
    case Credited(n) =>
      AskingCarries(p.(e := p.e.(tx := t.(sendCredit := t.sendCredit + n))));
    case Destroyed =>
  }

  /** A write puts the bytes of its cells on the leg, in order, and no others. */
  lemma {:induction false} CourseCarries(p: SourceLeg.Source, data: seq<byte>, bursts: seq<seq<seq<byte>>>,
                                         waits: seq<seq<Event>>)
    requires |waits| == |bursts| && BurstsFit(p, data, bursts, waits)
    ensures Bytes(Course(p, bursts, waits).up) == Bytes(p.up) + Flat(Gathered(bursts))
  {
    hide Flat, Bytes, Sends, Sendable, Reacted;
    if bursts == [] {
      NoneYet(p);
    } else {
      var n := |bursts| - 1;
      BurstsFitShorter(p, data, bursts[..n], waits, n);
      CourseCarries(p, data, bursts[..n], waits[..n]);
      var q := Course(p, bursts[..n], waits[..n]);
      TurnCarries(q, |data| - |Flat(Gathered(bursts[..n]))|, bursts[n]);
      ReactedCarries(Turn(q, bursts[n]), waits[n]);
      FlatConcat(Gathered(bursts[..n]), bursts[n]);
      assert Bytes(p.up) + Flat(Gathered(bursts[..n])) + Flat(bursts[n])
          == Bytes(p.up) + (Flat(Gathered(bursts[..n])) + Flat(bursts[n]));
    }
  }

  lemma TurnCarries(p: SourceLeg.Source, left: int, burst: seq<seq<byte>>)
    requires BurstFits(p, left, burst)
    ensures Bytes(Turn(p, burst).up) == Bytes(p.up) + Flat(burst)
  {
    hide SourceLeg.Request, SourceLeg.Relinquish, Bytes, Sends, Sendable, Flat;
    AskingCarries(p);
    SendsCarry(Polled(p), burst);
  }

  lemma {:induction false} BurstsFitShorter(p: SourceLeg.Source, data: seq<byte>, bursts: seq<seq<seq<byte>>>,
                                            waits: seq<seq<Event>>, n: nat)
    requires |bursts| <= n <= |waits| && BurstsFit(p, data, bursts, waits)
    ensures BurstsFit(p, data, bursts, waits[..n])
  {
    if bursts != [] {
      var m := |bursts| - 1;
      BurstsFitShorter(p, data, bursts[..m], waits, n);
      assert waits[..n][..m] == waits[..m];
    }
  }

  /** ... also while its last await is still open. */
  lemma WriteCarries(p: SourceLeg.Source, data: seq<byte>, bursts: seq<seq<seq<byte>>>, waits: seq<seq<Event>>)
    requires |bursts| <= |waits| + 1 && BurstsFit(p, data, bursts, waits)
    ensures Bytes(Stands(p, bursts, waits).up) == Bytes(p.up) + Flat(Gathered(bursts))
  {
    hide Flat, Bytes, Sends, Sendable, Turn, Course;
    var n := |waits|;
    if |bursts| > n {
      assert waits[..n] == waits;
      CourseCarries(p, data, bursts[..n], waits);
      TurnCarries(Course(p, bursts[..n], waits), |data| - |Flat(Gathered(bursts[..n]))|, bursts[n]);
      FlatConcat(Gathered(bursts[..n]), bursts[n]);
      assert Bytes(p.up) + Flat(Gathered(bursts[..n])) + Flat(bursts[n])
          == Bytes(p.up) + (Flat(Gathered(bursts[..n])) + Flat(bursts[n]));
    } else {
      BurstsFitShorter(p, data, bursts, waits, |bursts|);
      CourseCarries(p, data, bursts, waits[..|bursts|]);
    }
  }

  /** None of these cells is empty or too long. */
  ghost predicate FullCells(cells: seq<seq<byte>>)
  {
    forall i :: 0 <= i < |cells| ==> 0 < |cells[i]| <= MAX_LOGICAL_PAYLOAD
  }

  /** Credit for n bytes on a live stream, and as many undisturbed awaits as cells. */
  ghost predicate AmpleFor(n: nat, destroying: bool, sendCredit: nat, circuitCredit: nat, waits: seq<seq<Event>>)
  {
    && !destroying && CellsFor(n) <= sendCredit && CellsFor(n) <= circuitCredit && CellsFor(n) <= |waits|
    && forall k :: 0 <= k < |waits| ==> waits[k] == []
  }

  lemma NotAmple(n: nat, sendCredit: nat, circuitCredit: nat, waits: seq<seq<Event>>)
    ensures !AmpleFor(n, true, sendCredit, circuitCredit, waits)
  {
  }

  lemma CellsLeft(n: nat, b: nat)
    requires b <= CellsFor(n)
    ensures CellsFor(n - Min(n, b * MAX_LOGICAL_PAYLOAD)) == CellsFor(n) - b
    ensures n > 0 ==> CellsFor(n) > 0
  {
  }

  /** A turn and an undisturbed await leave the credit ample for the rest. */
  lemma AmpleOn(n: nat, n': nat, sendCredit: nat, circuitCredit: nat, sendCredit': nat, circuitCredit': nat,
                waits: seq<seq<Event>>, b: nat)
    requires n > 0 && n' == n - Min(n, b * MAX_LOGICAL_PAYLOAD)
    requires sendCredit > 0 ==>
      && b == Burst(n, sendCredit, circuitCredit)
      && sendCredit' == sendCredit - b && circuitCredit' == circuitCredit - b
    ensures AmpleFor(n, false, sendCredit, circuitCredit, waits) ==>
      waits != [] && waits[0] == [] && AmpleFor(n', false, sendCredit', circuitCredit', waits[1..])
  {
    if AmpleFor(n, false, sendCredit, circuitCredit, waits) {
      CellsLeft(n, 0);
      CellsLeft(n, b);
      hide CellsFor;
    }
  }

  lemma FullConcat(a: seq<seq<byte>>, b: seq<seq<byte>>)
    requires FullCells(a) && FullCells(b)
    ensures FullCells(a + b)
  {
  }

  lemma WrittenIs(p: SourceLeg.Source, data: seq<byte>, bursts: seq<seq<seq<byte>>>, waits: seq<seq<Event>>, offset: nat)
    requires |bursts| <= |waits| + 1 && WrittenTo(p, data, bursts, waits, offset)
    ensures BurstsFit(p, data, bursts, waits) && Flat(Gathered(bursts)) <= data && FullCells(Gathered(bursts))
    ensures Flat(Gathered(bursts)) == data <==> offset == |data|
    ensures Bytes(Stands(p, bursts, waits).up) == Bytes(p.up) + Flat(Gathered(bursts))
  {
    hide BurstsFit, Stands, Flat, Gathered, FullCells, Bytes;
    WriteCarries(p, data, bursts, waits);
    if offset < |data| {
      assert |data[..offset]| < |data|;
    } else {
      assert data[..offset] == data;
    }
  }

  class Stream {
    var sendCredit: nat
    var circuitCredit: nat
    var circuitRequested: nat
    var circuitCanceling: bool
    var writing: bool
    var localEnded: bool
    var destroying: bool
    /** What the link was given to send. */
    var up: seq<Frame>

    /** History of bytes written, and the rest of the source, which this half never touches. */
    ghost var written: seq<byte>
    ghost const rest: SourceLeg.Source
    /** History of grants that reached the stream too late. */
    ghost var lostCircuit: nat
    ghost var lostStream: nat

    ghost function State(): SourceLeg.Source
      reads this
    {
      rest.(up := up, lostCircuit := lostCircuit, lostStream := lostStream,
            e := rest.e.(phase := if destroying then Endpoint.Destroying else Endpoint.Active,
                         tx := Endpoint.Sender(sendCredit, circuitCredit, circuitRequested, circuitCanceling, writing,
                                               localEnded, written)))
    }

    constructor ()
      ensures State() == SourceLeg.NEW_SOURCE
    {
      sendCredit, circuitCredit, circuitRequested := STREAM_WINDOW, 0, 0;
      circuitCanceling, writing, localEnded, destroying := false, false, false, false;
      up, written, rest := [], [], SourceLeg.NEW_SOURCE;
      lostCircuit, lostStream := 0, 0;
    }

    /** `_requestCircuit`. */
    method RequestCircuit()
      modifies this`circuitRequested, this`up
      ensures State() == SourceLeg.Request(old(State()))
      ensures !destroying && !localEnded && sendCredit > 0 ==>
        circuitCredit > 1024 || circuitRequested > 0 || circuitCanceling
      ensures if circuitRequested == old(circuitRequested) then up == old(up)
              else old(circuitRequested) == 0 && circuitRequested + circuitCredit == 2048 && up == old(up) + [Demand(circuitRequested)]
    {
      if destroying || localEnded || sendCredit == 0 || circuitCanceling || circuitRequested != 0
         || circuitCredit > CIRCUIT_WINDOW / 2 {
        return;
      }
      var amount := CIRCUIT_WINDOW - circuitCredit;
      circuitRequested := amount;
      up := up + [Demand(amount)];
    }

    /** `_releaseCircuit`. */
    method ReleaseCircuit()
      modifies this`circuitCanceling, this`circuitCredit, this`up
      ensures State() == SourceLeg.Relinquish(old(State()))
      ensures circuitCredit == 0 && (circuitRequested > 0 ==> circuitCanceling)
      ensures up == old(up) + (if circuitCanceling && !old(circuitCanceling) then [Demand(0)] else [])
                            + (if old(circuitCredit) > 0 then [Release(old(circuitCredit))] else [])
    {
      if circuitRequested != 0 && !circuitCanceling {
        circuitCanceling := true;
        up := up + [Demand(0)];
      }
      if circuitCredit != 0 {
        var amount := circuitCredit;
        circuitCredit := 0;
        up := up + [Release(amount)];
      }
    }

    /** `grantCircuit`; false where the source throws. */
    method GrantCircuit(amount: nat) returns (ok: bool)
      modifies this`circuitRequested, this`circuitCanceling, this`circuitCredit, this`up, this`lostCircuit
      ensures var r := SourceLeg.HearGrant(old(State()), amount);
              (ok <==> r.Took?) && State() == if ok then r.source else old(State())
      ensures ok <==> destroying || (1 <= amount <= old(circuitRequested) && old(circuitCredit) + amount <= 2048)
      ensures ok && !destroying ==>
        && circuitRequested == old(circuitRequested) - amount
        && if sendCredit == 0 || localEnded then circuitCredit == 0 && (circuitRequested > 0 ==> circuitCanceling)
           else circuitCredit == old(circuitCredit) + amount && up == old(up)
    {
      if destroying {
        lostCircuit := lostCircuit + amount;
        return true;
      }
      if amount < 1 || amount > circuitRequested || circuitCredit + amount > CIRCUIT_WINDOW {
        return false;
      }
      circuitRequested := circuitRequested - amount;
      circuitCredit := circuitCredit + amount;
      if sendCredit == 0 || localEnded {
        ReleaseCircuit();
      }
      return true;
    }

    /** `cancelCircuit`: the demand's cancellation was acknowledged. */
    method CancelCircuit() returns (ok: bool)
      modifies this`circuitRequested, this`circuitCanceling, this`circuitCredit, this`up
      ensures var r := SourceLeg.HearAck(old(State()));
              (ok <==> r.Took?) && State() == if ok then r.source else old(State())
      ensures ok <==> destroying || old(circuitCanceling)
      ensures ok && !destroying ==>
        && !circuitCanceling
        && if !writing || sendCredit == 0 || localEnded then circuitCredit == 0 && circuitRequested == 0
           else circuitCredit > 1024 || circuitRequested + circuitCredit == 2048
    {
      if destroying {
        return true;
      }
      if !circuitCanceling {
        return false;
      }
      circuitCanceling := false;
      circuitRequested := 0;
      if !writing || sendCredit == 0 || localEnded {
        ReleaseCircuit();
      } else {
        RequestCircuit();
      }
      return true;
    }

    /** `grantStream`. */
    method GrantStream(amount: nat) returns (ok: bool)
      modifies this`sendCredit, this`circuitRequested, this`up, this`lostStream
      ensures var r := SourceLeg.HearStreamCredit(old(State()), amount);
              (ok <==> r.Took?) && State() == if ok then r.source else old(State())
      ensures ok <==> destroying || (amount >= 1 && old(sendCredit) + amount <= 512)
      ensures ok && !destroying ==> sendCredit == old(sendCredit) + amount
      ensures ok && !destroying && writing && !localEnded ==>
        circuitCredit > 1024 || circuitRequested > 0 || circuitCanceling
    {
      if destroying {
        lostStream := lostStream + amount;
        return true;
      }
      if amount < 1 || sendCredit + amount > STREAM_WINDOW {
        return false;
      }
      sendCredit := sendCredit + amount;
      if writing {
        RequestCircuit();
      }
      return true;
    }

    /** What reaches the stream while a write waits; what it has sent stands. */
    method Undergo(events: seq<Event>)
      modifies this`sendCredit, this`circuitCredit, this`circuitRequested, this`circuitCanceling, this`up, this`destroying,
               this`lostCircuit, this`lostStream
      ensures State() == Reacted(old(State()), events)
      ensures events == [] ==>
        destroying == old(destroying) && sendCredit == old(sendCredit) && circuitCredit == old(circuitCredit)
      ensures written == old(written) && writing == old(writing) && (old(destroying) ==> destroying)
    {
      for i := 0 to |events|
        invariant State() == Reacted(old(State()), events[..i])
        invariant written == old(written) && writing == old(writing) && (old(destroying) ==> destroying)
      {
        assert events[..i + 1][..i] == events[..i];
        Undergo1(events[i]);
      }
      assert events[..|events|] == events;
    }

    method SetFlag(on: bool)
      modifies this`writing
      ensures writing == on && State() == SetWriting(old(State()), on)
    {
      writing := on;
    }

    lemma StateIs()
      ensures State().up == up && SetWriting(State(), writing) == State()
    {
    }

    method Undergo1(event: Event)
      modifies this`sendCredit, this`circuitCredit, this`circuitRequested, this`circuitCanceling, this`up, this`destroying,
               this`lostCircuit, this`lostStream
      ensures State() == React(old(State()), event)
      ensures written == old(written) && writing == old(writing) && (old(destroying) ==> destroying)
    {
      hide SourceLeg.Relinquish, SourceLeg.Request;
      var ok := true;
      match event {
        case Granted(n) =>
          ok := GrantCircuit(n);
        case Acknowledged =>
          ok := CancelCircuit();
        case Credited(n) =>
          ok := GrantStream(n);
        case Destroyed =>
          ok := false;
      }
      if !ok {
        destroying := true;
      }
    }

    /** A turn that sent this many cells has asked for all the circuit credit it may: without
        stream credit none is held or wanted, and with it, unless more than half of the
        window was held, a demand or a cancellation is open.  So a write that waits because
        it has no circuit credit has asked for some. */
    predicate Asking(sent: nat)
      reads this
    {
      && (sendCredit + sent == 0 ==> circuitCredit == 0 && (circuitRequested > 0 ==> circuitCanceling))
      && (sendCredit + sent > 0 && !localEnded ==>
            circuitCredit + sent > 1024 || circuitRequested > 0 || circuitCanceling)
      && (sendCredit > 0 && circuitCredit == 0 && !localEnded ==> circuitRequested > 0 || circuitCanceling)
    }

    /** `_sendData` as a whole: `waits[k]` is what reaches the stream at the k-th await.
        Whatever that is, the write is one turn after another, each with as many cells as
        credit and batch allow, and nothing else is done to the stream.  The cells are
        consecutive fragments of the data from its beginning, and exactly their bytes join
        those on the leg; a write that completes has sent all of the data, each byte once.
        With credit for all of it, and left alone, it completes within as many awaits as
        there are cells. */
    method SendData(data: seq<byte>, waits: seq<seq<Event>>) returns (end: Ending, ghost bursts: seq<seq<seq<byte>>>)
      modifies this`sendCredit, this`circuitCredit, this`circuitRequested, this`circuitCanceling, this`up, this`destroying,
               this`lostCircuit, this`lostStream, this`writing, this`written
      ensures |bursts| <= |waits| + 1 && (end == Waiting <==> |bursts| == |waits| + 1)
      ensures BurstsFit(SetWriting(old(State()), true), data, bursts, waits)
      ensures State() == SetWriting(Stands(SetWriting(old(State()), true), bursts, waits), end == Waiting)
      ensures Bytes(up) == Bytes(old(up)) + Flat(Gathered(bursts))
      ensures written == old(written) + Flat(Gathered(bursts)) && Flat(Gathered(bursts)) <= data && FullCells(Gathered(bursts))
      ensures end == Complete ==> Flat(Gathered(bursts)) == data
      ensures end == Failed ==> destroying && Flat(Gathered(bursts)) != data
      ensures AmpleFor(|data|, old(destroying), old(sendCredit), old(circuitCredit), waits) ==> end == Complete
      ensures end == Waiting ==> Asking(|bursts[|bursts| - 1]|)
    {
      hide Sends, Sendable, Flat, Bytes, CellsFor, FullCells, AmpleFor, Turn, Course, Stands, BurstsFit, BurstFits,
           Gathered, Reacted, WrittenTo, Burst, SetWriting, State;
      StateIs();
      SetFlag(true);
      ghost var start := State();
      StateIs();
      var offset, turn := 0, 0;
      bursts := [];
      NoTurns(start, data, waits);
      while offset < |data|
        invariant turn == |bursts| <= |waits| && offset <= |data| && writing
        invariant State() == Course(start, bursts, waits[..turn]) && WrittenTo(start, data, bursts, waits, offset)
        invariant written == old(written) + Flat(Gathered(bursts))
        invariant AmpleFor(|data|, old(destroying), old(sendCredit), old(circuitCredit), waits) ==>
          AmpleFor(|data| - offset, destroying, sendCredit, circuitCredit, waits[turn..])
        decreases |waits| - turn
      {
        if destroying {
          NotAmple(|data| - offset, sendCredit, circuitCredit, waits[turn..]);
          end := Failed;
          break;
        }
        ghost var was, credit, circuit, before := offset, sendCredit, circuitCredit, bursts;
        ghost var burst;
        offset, burst := SendBurst(data, offset);
        WrittenMore(start, data, before, waits, was, burst, offset);
        bursts := before + [burst];
        AmpleOn(|data| - was, |data| - offset, credit, circuit, sendCredit, circuitCredit, waits[turn..], |burst|);
        if turn == |waits| {
          assert waits[..turn] == waits;
          StateIs();
          WrittenIs(start, data, bursts, waits, offset);
          end := Waiting;
          return;
        }
        Undergo(waits[turn]);
        assert waits[turn..][1..] == waits[turn + 1..] && waits[turn..][0] == waits[turn];
        turn := turn + 1;
      }
      HasStood(start, bursts, waits);
      WrittenIs(start, data, bursts, waits, offset);
      StateIs();
      SetFlag(false);
      end := if offset < |data| then Failed else Complete;
    }

    /** One turn of the `_sendData` loop between two awaits: ask for or give back circuit
        credit, then send as many cells as credit and the batch allow.  The cells are
        consecutive fragments of the data, each a send the protocol permits. */
    method SendBurst(data: seq<byte>, offset: nat) returns (next: nat, ghost cells: seq<seq<byte>>)
      requires writing && !destroying && offset < |data|
      modifies this`sendCredit, this`circuitCredit, this`circuitRequested, this`circuitCanceling, this`up, this`written
      ensures Endpoint.Enabled(old(State()).e, Endpoint.Poll)
      ensures BurstFits(old(State()), |data| - offset, cells) && State() == Turn(old(State()), cells)
      ensures offset <= next <= |data| && Flat(cells) == data[offset..next]
      ensures next == Min(|data|, offset + |cells| * MAX_LOGICAL_PAYLOAD)
      ensures |cells| == CellsFor(|data| - offset) ==> next == |data|
      ensures written == old(written) + Flat(cells) && FullCells(cells) && writing && !destroying
      ensures Asking(|cells|)
      ensures old(sendCredit) > 0 ==>
        && |cells| == Burst(|data| - offset, old(sendCredit), old(circuitCredit))
        && sendCredit == old(sendCredit) - |cells| && circuitCredit == old(circuitCredit) - |cells|
    {
      if sendCredit == 0 {
        ReleaseCircuit();
      } else {
        RequestCircuit();
      }
      next, cells := Fragment(data, offset);
    }

    method Fragment(data: seq<byte>, offset: nat) returns (next: nat, ghost cells: seq<seq<byte>>)
      requires writing && !destroying && offset < |data|
      modifies this`sendCredit, this`circuitCredit, this`up, this`written
      ensures Sendable(old(State()), cells) && State() == Sends(old(State()), cells)
      ensures |cells| == Burst(|data| - offset, old(sendCredit), old(circuitCredit))
      ensures offset <= next <= |data| && Flat(cells) == data[offset..next]
      ensures next == Min(|data|, offset + |cells| * MAX_LOGICAL_PAYLOAD)
      ensures |cells| == CellsFor(|data| - offset) ==> next == |data|
      ensures written == old(written) + Flat(cells) && FullCells(cells) && writing && !destroying
      ensures sendCredit == old(sendCredit) - |cells| && circuitCredit == old(circuitCredit) - |cells|
    {
      hide Sends, Sendable, Flat, FullCells, CellsFor, SourceLeg.Perform, Cut;
      NoneYet(State());
      CutNone(data, offset);
      var count := Burst(|data| - offset, sendCredit, circuitCredit);
      next, cells := offset, [];
      for i := 0 to count
        invariant |cells| == i && writing && !destroying && Cut(data, offset, cells, next)
        invariant sendCredit == old(sendCredit) - i && circuitCredit == old(circuitCredit) - i
        invariant written == old(written) + Flat(cells)
        invariant Sendable(old(State()), cells) && State() == Sends(old(State()), cells)
      {
        CutLeaves(data, offset, cells, next);
        var length := Min(MAX_LOGICAL_PAYLOAD, |data| - next);
        var cell := data[next..next + length];
        SendCell(cell);
        OneMore(old(State()), cells, cell);
        CutMore(data, offset, cells, next, cell);
        cells := cells + [cell];
        next := next + length;
      }
      CutIs(data, offset, cells, next);
    }

    /** One DATA frame: both credits pay for it. */
    method SendCell(cell: seq<byte>)
      requires Endpoint.Enabled(State().e, Endpoint.Send(cell))
      modifies this`sendCredit, this`circuitCredit, this`up, this`written
      ensures SourceLeg.Perform(old(State()), Endpoint.Send(cell)) == SourceLeg.Took(State())
      ensures sendCredit == old(sendCredit) - 1 && circuitCredit == old(circuitCredit) - 1
      ensures written == old(written) + cell
    {
      sendCredit, circuitCredit := sendCredit - 1, circuitCredit - 1;
      up := up + [Data(cell)];
      written := written + cell;
    }
  }

  /** These cells are fragments of the data from `offset` to `next`, full but for the last. */
  ghost predicate Cut(data: seq<byte>, offset: nat, cells: seq<seq<byte>>, next: nat)
  {
    && offset <= next <= |data| && next == Min(|data|, offset + |cells| * MAX_LOGICAL_PAYLOAD)
    && Flat(cells) == data[offset..next] && FullCells(cells)
  }

  lemma CutNone(data: seq<byte>, offset: nat)
    requires offset <= |data|
    ensures Cut(data, offset, [], offset)
  {
  }

  lemma CutMore(data: seq<byte>, offset: nat, cells: seq<seq<byte>>, next: nat, cell: seq<byte>)
    requires Cut(data, offset, cells, next) && next < |data| && |cell| == Min(MAX_LOGICAL_PAYLOAD, |data| - next)
    requires cell == data[next..next + |cell|]
    ensures Cut(data, offset, cells + [cell], next + |cell|) && Flat(cells + [cell]) == Flat(cells) + cell
  {
    hide Flat, FullCells;
    FlatAppend(cells, cell);
    FullMore(cells, cell);
    Adjoining(data, offset, next, next + |cell|);
    assert |cells + [cell]| == |cells| + 1;
  }

  /** Before the last of the cells needed, data is left. */
  lemma CutLeaves(data: seq<byte>, offset: nat, cells: seq<seq<byte>>, next: nat)
    requires Cut(data, offset, cells, next) && |cells| < CellsFor(|data| - offset)
    ensures next < |data|
  {
    BytesLeft(|data| - offset, |cells|);
  }

  lemma FullMore(cells: seq<seq<byte>>, cell: seq<byte>)
    requires FullCells(cells) && 0 < |cell| <= MAX_LOGICAL_PAYLOAD
    ensures FullCells(cells + [cell])
  {
  }

  lemma CutIs(data: seq<byte>, offset: nat, cells: seq<seq<byte>>, next: nat)
    requires Cut(data, offset, cells, next)
    ensures offset <= next <= |data| && Flat(cells) == data[offset..next] && FullCells(cells)
    ensures next == Min(|data|, offset + |cells| * MAX_LOGICAL_PAYLOAD)
    ensures |cells| == CellsFor(|data| - offset) ==> next == |data|
  {
    AllBytes(|data| - offset);
  }

  lemma NoneYet(p: SourceLeg.Source)
    ensures Sends(p, []) == p && Sendable(p, []) && Flat([]) == []
  {
  }

  /** Before the last of the cells needed for n bytes, bytes are left. */
  lemma BytesLeft(n: nat, i: nat)
    requires i < CellsFor(n)
    ensures i * MAX_LOGICAL_PAYLOAD < n
  {
  }

  lemma AllBytes(n: nat)
    ensures CellsFor(n) * MAX_LOGICAL_PAYLOAD >= n
  {
  }
}
