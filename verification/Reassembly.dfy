/** Cutting the byte stream of a circuit link into cells, however it arrives. */
module Reassembly {
  import opened Limits
  import opened Frames

  /** The complete cells at the front of a byte stream. */
  ghost function Cells(s: seq<byte>): seq<seq<byte>>
  {
    if |s| < CELL_SIZE then [] else [s[..CELL_SIZE]] + Cells(s[CELL_SIZE..])
  }

  /** What is left behind the last complete cell. */
  ghost function Rest(s: seq<byte>): seq<byte>
  {
    if |s| < CELL_SIZE then s else Rest(s[CELL_SIZE..])
  }

  /** Cells and rest lose nothing: the stream is the cells, each of full size, in order,
      followed by less than one more. */
  lemma {:induction false} CellsLoseNothing(s: seq<byte>)
    ensures s == Flat(Cells(s)) + Rest(s) && |Rest(s)| < CELL_SIZE
    ensures forall i :: 0 <= i < |Cells(s)| ==> |Cells(s)[i]| == CELL_SIZE
  {
    if |s| >= CELL_SIZE {
      CellsLoseNothing(s[CELL_SIZE..]);
      assert s == s[..CELL_SIZE] + s[CELL_SIZE..];
    }
  }

  /** More bytes that do not pass the end of the current cell. */
  lemma {:induction false} CellsExtended(s: seq<byte>, t: seq<byte>)
    requires |Rest(s)| + |t| <= CELL_SIZE
    ensures |Rest(s)| + |t| < CELL_SIZE ==> Cells(s + t) == Cells(s) && Rest(s + t) == Rest(s) + t
    ensures |Rest(s)| + |t| == CELL_SIZE ==> Cells(s + t) == Cells(s) + [Rest(s) + t] && Rest(s + t) == []
  {
    if |s| >= CELL_SIZE {
      assert (s + t)[..CELL_SIZE] == s[..CELL_SIZE] && (s + t)[CELL_SIZE..] == s[CELL_SIZE..] + t;
      CellsExtended(s[CELL_SIZE..], t);
    } else if |s| + |t| == CELL_SIZE {
      assert (s + t)[..CELL_SIZE] == s + t && (s + t)[CELL_SIZE..] == [];
    }
  }

  lemma WholeCell(s: seq<byte>, cell: seq<byte>)
    requires |Rest(s)| == 0 && |cell| == CELL_SIZE
    ensures Cells(s + cell) == Cells(s) + [cell] && Rest(s + cell) == []
  {
    hide Cells, Rest;
    CellsExtended(s, cell);
    assert Rest(s) + cell == cell;
  }

  /** Of the cells opened since `blocks` had length `was`, every one but the last survived,
      and the link is dead exactly if the last one killed it. */
  ghost predicate DiesOf(was: nat, now: nat, survives: nat -> bool, dead: bool)
  {
    && was <= now
    && (forall i :: 0 <= i < now - was - 1 ==> survives(i))
    && (dead <==> now > was && !survives(now - was - 1))
  }

  lemma DiesNext(was: nat, now: nat, survives: nat -> bool)
    requires DiesOf(was, now, survives, false)
    ensures DiesOf(was, now + 1, survives, !survives(now - was))
  {
  }

  class Inbound {
    /** The buffer for a partial cell, and how much of it is filled. */
    var incoming: array?<byte>
    var incomingBytes: nat
    var destroyed: bool

    /** History: the bytes taken in so far and the cells given to `_openCell`. */
    ghost var taken: seq<byte>
    ghost var blocks: seq<seq<byte>>

    ghost predicate Valid()
      reads this, incoming
    {
      && blocks == Cells(taken)
      && (incoming != null ==> incoming.Length == CELL_SIZE)
      && (destroyed ==> incoming == null && incomingBytes == 0)
      && (!destroyed ==> |Rest(taken)| == incomingBytes < CELL_SIZE)
      && (incomingBytes > 0 ==> incoming != null && incoming[..incomingBytes] == Rest(taken))
    }

    constructor ()
      ensures Valid() && !destroyed && taken == [] && blocks == []
    {
      incoming, incomingBytes, destroyed := null, 0, false;
      taken, blocks := [], [];
    }

    /** `destroy`, as far as the receive side goes. */
    method Destroy()
      modifies this`incoming, this`incomingBytes, this`destroyed
      ensures destroyed && incoming == null && incomingBytes == 0
    {
      incoming, incomingBytes, destroyed := null, 0, true;
    }

    /** `_openCell`: the cell is handed on; `survives` says of the n-th cell whether the
        link is still alive afterwards. */
    method OpenCell(cell: seq<byte>, ghost bytes: seq<byte>, n: nat, survives: nat -> bool)
      requires blocks + [cell] == Cells(taken + bytes) && Rest(taken + bytes) == [] && incomingBytes == 0
      requires !destroyed && (incoming != null ==> incoming.Length == CELL_SIZE)
      modifies this
      ensures Valid() && destroyed == !survives(n) && blocks == old(blocks) + [cell] && taken == old(taken) + bytes
      ensures incoming == old(incoming) || incoming == null
      ensures incomingBytes == 0
    {
      blocks, taken := blocks + [cell], taken + bytes;
      if !survives(n) {
        Destroy();
      }
    }

    /** The bytes that belong to a partial cell, which is opened when complete. */
    method CompletePartial(chunk: seq<byte>, survives: nat -> bool) returns (offset: nat, n: nat)
      requires Valid() && !destroyed && incomingBytes > 0
      modifies this, incoming
      ensures n == |blocks| - |old(blocks)| && DiesOf(|old(blocks)|, |blocks|, survives, destroyed)
      ensures Valid() && offset <= |chunk| && taken == old(taken) + chunk[..offset] && old(blocks) <= blocks
      ensures incoming == old(incoming) || incoming == null
      ensures !destroyed && incomingBytes != 0 ==> offset == |chunk|
    {
      hide Cells, Rest;
      offset := if CELL_SIZE - incomingBytes < |chunk| then CELL_SIZE - incomingBytes else |chunk|;
      CellsExtended(taken, chunk[..offset]);
      forall i | 0 <= i < offset {
        incoming[incomingBytes + i] := chunk[i];
      }
      incomingBytes := incomingBytes + offset;
      assert incoming[..incomingBytes] == Rest(taken) + chunk[..offset];
      n := 0;
      if incomingBytes != CELL_SIZE {
        taken := taken + chunk[..offset];
        return;
      }
      var cell := incoming[..];
      assert cell == incoming[..incomingBytes];
      incomingBytes := 0;
      OpenCell(cell, chunk[..offset], n, survives);
      n := 1;
    }

    /** The complete cells of the chunk, opened in place; `before` and `start` say how many
        cells this chunk and the ones before it had completed. */
    method OpenWhole(chunk: seq<byte>, from: nat, start: nat, survives: nat -> bool, ghost before: nat) returns (offset: nat)
      requires Valid() && from <= |chunk| && (destroyed || incomingBytes == 0)
      requires start == |blocks| - before && DiesOf(before, |blocks|, survives, destroyed)
      modifies this
      ensures DiesOf(before, |blocks|, survives, destroyed)
      ensures Valid() && from <= offset <= |chunk| && taken == old(taken) + chunk[from..offset] && old(blocks) <= blocks
      ensures old(destroyed) ==> destroyed
      ensures !destroyed ==> incomingBytes == 0 && |chunk| - offset < CELL_SIZE
      ensures incoming == old(incoming) || incoming == null
    {
      hide Cells, Rest, DiesOf;
      offset := from;
      var n := start;
      while !destroyed && offset + CELL_SIZE <= |chunk|
        invariant Valid() && from <= offset <= |chunk| && taken == old(taken) + chunk[from..offset] && old(blocks) <= blocks
        invariant !destroyed ==> incomingBytes == 0
        invariant incoming == old(incoming) || incoming == null
        invariant old(destroyed) ==> destroyed
        invariant n == |blocks| - before && DiesOf(before, |blocks|, survives, destroyed)
        decreases |chunk| - offset
      {
        var cell := chunk[offset..offset + CELL_SIZE];
        WholeCell(taken, cell);
        DiesNext(before, |blocks|, survives);
        OpenCell(cell, cell, n, survives);
        n := n + 1;
        Adjoining(chunk, from, offset, offset + CELL_SIZE);
        offset := offset + CELL_SIZE;
      }
    }

    /** `_receive`: the cells opened are the consecutive 1200-byte blocks of everything taken
        in; the chunk is taken in whole unless one of them kills the link, which is then the
        last one opened.  `relayed` says whether the sender's address is still the relay's. */
    method Receive(chunk: seq<byte>, relayed: bool, survives: nat -> bool)
      requires Valid()
      modifies this, incoming
      ensures Valid()
      ensures old(destroyed) ==> destroyed && taken == old(taken)
      ensures chunk == [] || !relayed ==> destroyed && taken == old(taken)
      ensures !destroyed ==> taken == old(taken) + chunk
      ensures taken <= old(taken) + chunk && old(blocks) <= blocks
      ensures !old(destroyed) && relayed && chunk != [] ==> DiesOf(|old(blocks)|, |blocks|, survives, destroyed)
      ensures !old(destroyed) && relayed && chunk != [] && (forall n :: survives(n)) ==> !destroyed
    {
      hide Cells, Rest;
      if destroyed {
        return;
      }
      if chunk == [] || !relayed {
        Destroy();
        return;
      }
      var offset, n := 0, 0;
      if incomingBytes != 0 {
        offset, n := CompletePartial(chunk, survives);
        if !destroyed && incomingBytes != 0 {
          return;
        }
      }
      TakeRest(chunk, offset, n, survives, |old(blocks)|);
      assert chunk[..offset] + chunk[offset..] == chunk;
    }

    /** The rest of the chunk: complete cells, then the incomplete one. */
    method TakeRest(chunk: seq<byte>, from: nat, n: nat, survives: nat -> bool, ghost before: nat)
      requires Valid() && from <= |chunk| && (destroyed || incomingBytes == 0)
      requires n == |blocks| - before && DiesOf(before, |blocks|, survives, destroyed)
      modifies this, incoming
      ensures DiesOf(before, |blocks|, survives, destroyed)
      ensures Valid() && (old(destroyed) ==> destroyed) && old(blocks) <= blocks
      ensures !destroyed ==> taken == old(taken) + chunk[from..]
      ensures taken <= old(taken) + chunk[from..]
    {
      hide Cells, Rest;
      var offset := OpenWhole(chunk, from, n, survives, before);
      if !destroyed && offset < |chunk| {
        KeepTail(chunk[offset..]);
      }
      assert chunk[from..offset] + chunk[offset..] == chunk[from..];
    }

    /** The final incomplete cell moves into the buffer. */
    method KeepTail(tail: seq<byte>)
      requires Valid() && !destroyed && incomingBytes == 0 && 0 < |tail| < CELL_SIZE
      modifies this, incoming
      ensures Valid() && !destroyed && taken == old(taken) + tail && blocks == old(blocks)
    {
      hide Cells, Rest;
      if incoming == null {
        incoming := new byte[CELL_SIZE];
      }
      CellsExtended(taken, tail);
      forall i | 0 <= i < |tail| {
        incoming[i] := tail[i];
      }
      incomingBytes := |tail|;
      taken := taken + tail;
      assert incoming[..incomingBytes] == tail;
    }
  }
}
