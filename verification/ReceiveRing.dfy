/**
 The receive half of a logical route stream as the object it is: a fixed ring of 512 slots
 with a head and a length.  Every method refines the transition of the same name on the
 stream's abstract receiver, whose queue is a plain sequence.
 */
module ReceiveRing {
  import opened Options
  import opened Frames
  import Endpoint

  /** The slot of the i-th queued cell. */
  function Slot(head: nat, i: nat): (k: nat)
    ensures k < STREAM_WINDOW
  {
    (head + i) % STREAM_WINDOW
  }

  lemma SlotIs(head: nat, i: nat)
    ensures Slot(head, i) == (head + i) % STREAM_WINDOW
  {
  }

  /** Different positions inside the window use different slots. */
  lemma SlotsDiffer(head: nat, i: nat, j: nat)
    requires i < j < STREAM_WINDOW
    ensures Slot(head, i) != Slot(head, j)
  {
  }

  /** Advancing the head shifts positions by one. */
  lemma SlotShift(head: nat, i: nat)
    ensures Slot(Slot(head, 1), i) == Slot(head, i + 1)
  {
  }

  /** The ring holds exactly this queue; every other slot is empty. */
  ghost predicate Holds(slots: seq<Option<seq<byte>>>, head: nat, q: seq<seq<byte>>)
  {
    && |slots| == STREAM_WINDOW && head < STREAM_WINDOW && |q| <= STREAM_WINDOW
    && (forall i :: 0 <= i < |q| ==> slots[Slot(head, i)] == Some(q[i]))
    && (forall i :: |q| <= i < STREAM_WINDOW ==> slots[Slot(head, i)] == None)
  }

  lemma HoldsPut(slots: seq<Option<seq<byte>>>, head: nat, q: seq<seq<byte>>, data: seq<byte>)
    requires Holds(slots, head, q) && |q| < STREAM_WINDOW
    ensures slots[Slot(head, |q|)] == None
    ensures Holds(slots[Slot(head, |q|) := Some(data)], head, q + [data])
  {
    hide Slot;
    var slots' := slots[Slot(head, |q|) := Some(data)];
    forall i | 0 <= i < STREAM_WINDOW && i != |q|
      ensures slots'[Slot(head, i)] == slots[Slot(head, i)]
    {
      if i < |q| {
        SlotsDiffer(head, i, |q|);
      } else {
        SlotsDiffer(head, |q|, i);
      }
    }
  }

  lemma HoldsTake(slots: seq<Option<seq<byte>>>, head: nat, q: seq<seq<byte>>)
    requires Holds(slots, head, q) && q != []
    ensures Slot(head, 0) == head && slots[head] == Some(q[0])
    ensures Holds(slots[head := None], Slot(head, 1), q[1..])
  {
    assert Slot(head, 0) == head;
    var slots', head' := slots[head := None], Slot(head, 1);
    assert head' < STREAM_WINDOW;
    assert Slot(head, STREAM_WINDOW) == head;
    hide Slot;
    forall i | 0 <= i < STREAM_WINDOW
      ensures slots'[Slot(head', i)] == if i + 1 < |q| then Some(q[i + 1]) else None
    {
      SlotShift(head, i);
      if i + 1 < STREAM_WINDOW {
        SlotsDiffer(head, 0, i + 1);
      }
    }
  }

  class Stream {
    const queue: array<Option<seq<byte>>>
    var queueHead: nat
    var queueLength: nat
    var queuedBytes: int
    var receiveCredit: int
    var streamReturnPending: nat
    var receivedOutstanding: nat
    var delivered: bool
    var wantRead: bool
    var remoteEnded: bool
    var destroying: bool

    /** The queue the ring stands for, and the history of what the reader was given. */
    ghost var contents: seq<seq<byte>>
    ghost var pushed: seq<byte>
    ghost var eof: bool

    /** The ring and its byte count stand for `contents`. */
    ghost predicate Shaped()
      reads this`queueHead, this`queueLength, this`queuedBytes, this`contents, queue
    {
      && queue.Length == STREAM_WINDOW
      && Holds(queue[..], queueHead, contents) && queueLength == |contents|
      && queuedBytes == |Flat(contents)|
    }

    /** A live stream accounts for its whole window. */
    ghost predicate Valid()
      reads this, queue
    {
      Shaped() && (!destroying ==> receiveCredit >= 0 && Endpoint.Window(State()))
    }

    ghost function State(): Endpoint.Receiver
      reads this
      requires receiveCredit >= 0
    {
      Endpoint.Receiver(receiveCredit, streamReturnPending, receivedOutstanding, contents, delivered, wantRead,
                        remoteEnded, pushed, eof)
    }

    constructor ()
      ensures !destroying && fresh(queue) && Valid() && State() == Endpoint.NEW_RECEIVER
    {
      queue := new Option<seq<byte>>[STREAM_WINDOW](_ => None);
      queueHead, queueLength, queuedBytes := 0, 0, 0;
      receiveCredit, streamReturnPending, receivedOutstanding := STREAM_WINDOW, 0, 0;
      delivered, wantRead, remoteEnded, destroying := false, false, false, false;
      contents, pushed, eof := [], [], false;
    }

    /** Storing a cell behind the last one: the slot it takes was free. */
    method Put(data: seq<byte>)
      requires Shaped() && queueLength < STREAM_WINDOW
      modifies this`queueLength, this`queuedBytes, this`contents, queue
      ensures Shaped() && contents == old(contents) + [data]
      ensures old(queue[Slot(queueHead, queueLength)]) == None
    {
      hide Slot, Holds, Flat;
      HoldsPut(queue[..], queueHead, contents, data);
      FlatAppend(contents, data);
      queuedBytes := queuedBytes + |data|;
      ghost var was := queue[..];
      queue[(queueHead + queueLength) % STREAM_WINDOW] := Some(data);
      assert queue[..] == was[Slot(queueHead, queueLength) := Some(data)] by {
        SlotIs(queueHead, queueLength);
      }
      queueLength := queueLength + 1;
      contents := contents + [data];
    }

    /** Emptying the slot at the head. */
    method Take() returns (data: seq<byte>)
      requires Shaped() && queueLength > 0
      modifies this`queueHead, this`queueLength, this`queuedBytes, this`contents, queue
      ensures Shaped() && data == old(contents)[0] && contents == old(contents)[1..]
    {
      HoldsTake(queue[..], queueHead, contents);
      assert |Flat(contents)| == |contents[0]| + |Flat(contents[1..])|;
      hide Slot, Holds, Flat;
      ghost var was := queue[..];
      data := queue[queueHead].value;
      queue[queueHead] := None;
      assert queue[..] == was[queueHead := None];
      SlotIs(queueHead, 1);
      queueHead := (queueHead + 1) % STREAM_WINDOW;
      queueLength := queueLength - 1;
      queuedBytes := queuedBytes - |data|;
      contents := contents[1..];
    }

    /** `_drain` of a live stream. */
    method Drain()
      requires Shaped() && receiveCredit >= 0 && !destroying
      modifies this, queue
      ensures Shaped() && receiveCredit == old(receiveCredit) && !destroying
      ensures State() == Endpoint.Drain(old(State()))
      ensures eof == (old(eof) || (remoteEnded && contents == [] && !delivered)) && remoteEnded == old(remoteEnded)
      ensures if old(wantRead) && old(contents) != []
              then delivered && pushed == old(pushed) + old(contents)[0] && contents == old(contents)[1..]
              else delivered == old(delivered) && pushed == old(pushed) && contents == old(contents)
    {
      hide Holds, Flat;
      if wantRead && queueLength > 0 {
        var data := Take();
        wantRead, delivered := false, true;
        pushed := pushed + data;
      }
      if remoteEnded && queueLength == 0 && !delivered {
        wantRead := false;
        eof := true;
      }
    }

    /** `receive`, after the circuit has been charged: a cell is kept exactly when the
        stream is live, not ended, and has credit; otherwise the stream dies. */
    method Receive(data: seq<byte>) returns (kept: bool)
      requires Valid()
      modifies this, queue
      ensures Valid()
      ensures kept <==> !old(destroying) && !old(remoteEnded) && old(receiveCredit) > 0
      ensures kept ==> !destroying && State() == Endpoint.Accept(old(State()), data)
      ensures kept ==>
        if old(wantRead) then delivered && pushed == old(pushed) + data && contents == []
        else delivered == old(delivered) && pushed == old(pushed) && contents == old(contents) + [data]
      ensures !kept ==> destroying && contents == old(contents) && pushed == old(pushed) && eof == old(eof)
    {
      hide Holds, Flat, Endpoint.Drain, Endpoint.Received, Endpoint.Window;
      if destroying || remoteEnded {
        destroying := true;
        return false;
      }
      if receiveCredit > 0 {
        Endpoint.AcceptKeepsWindow(State(), data);
        Endpoint.AcceptServes(State(), data);
      }
      receivedOutstanding := receivedOutstanding + 1;
      receiveCredit := receiveCredit - 1;
      if receiveCredit < 0 || queueLength >= STREAM_WINDOW {
        destroying := true;
        return false;
      }
      Put(data);
      Drain();
      return true;
    }

    /** `_read`: the amount goes back to the peer as stream credit. */
    method Read() returns (back: nat)
      requires Valid() && !destroying
      modifies this, queue
      ensures Valid() && !destroying && (State(), back) == Endpoint.ReadNext(old(State()))
      ensures if old(contents) != []
              then delivered && pushed == old(pushed) + old(contents)[0] && contents == old(contents)[1..]
              else !delivered && pushed == old(pushed) && contents == [] && (wantRead || eof)
      ensures old(contents) == [] && remoteEnded ==> eof
    {
      hide Holds, Flat, Shaped, Endpoint.Drain, Endpoint.Received, Endpoint.Consume;
      Endpoint.ReadKeepsWindow(State());
      Endpoint.ReadServes(State());
      back := 0;
      if delivered {
        back := Consume();
      }
      wantRead := true;
      Drain();
    }

    /** The first half of `_read`. */
    method Consume() returns (back: nat)
      requires receiveCredit >= 0 && delivered && receivedOutstanding > 0
      modifies this`delivered, this`receivedOutstanding, this`streamReturnPending, this`receiveCredit
      ensures receiveCredit >= 0 && (State(), back) == Endpoint.Consume(old(State()))
    {
      back := 0;
      delivered := false;
      receivedOutstanding := receivedOutstanding - 1;
      streamReturnPending := streamReturnPending + 1;
      if streamReturnPending >= STREAM_CREDIT_BATCH {
        back := streamReturnPending;
        streamReturnPending := 0;
        receiveCredit := receiveCredit + back;
      }
    }

    /** `remoteFin`. */
    method RemoteFin()
      requires Valid()
      modifies this, queue
      ensures Valid() && remoteEnded && destroying == old(destroying)
      ensures !destroying && old(remoteEnded) ==> State() == old(State())
      ensures !destroying && !old(remoteEnded) ==> State() == Endpoint.Drain(old(State()).(remoteEnded := true))
      ensures !destroying && !old(remoteEnded) && old(contents) == [] && !old(delivered) ==> eof && pushed == old(pushed)
    {
      hide Holds, Flat;
      if remoteEnded {
        return;
      }
      remoteEnded := true;
      if !destroying {
        Endpoint.DrainMovesOneCell(State());
        Drain();
      }
    }
  }
}
