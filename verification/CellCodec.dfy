/**
 Sealing a payload into a fixed-size authenticated cell, in two forms: the allocating
 `seal` and `open`, which are functions of their inputs, and the reusable context, which
 fills its own buffers in place.  The cipher is any pair of functions where opening undoes
 sealing.
 */
module CellCodec {
  import opened Limits
  import opened Options
  import opened Frames
  import opened BigEndian

  const CELL_HEADER_SIZE: nat := 36
  const CELL_BODY_SIZE: nat := 1148
  const MAX_CELL_PAYLOAD: nat := 1146
  const AEAD_TAG_BYTES: nat := 16
  const PROTOCOL_VERSION: byte := 0
  const MAX_UINT64: nat := 0xffff_ffff_ffff_ffff

  datatype Aead = Aead(
    seal: (seq<byte>, seq<byte>, seq<byte>, seq<byte>) -> seq<byte>,
    open: (seq<byte>, seq<byte>, seq<byte>, seq<byte>) -> Option<seq<byte>>)

  /** Key, nonce, associated data, then plaintext or ciphertext. */
  ghost predicate Lawful(a: Aead)
  {
    && (forall k, n, d, body :: |a.seal(k, n, d, body)| == |body| + AEAD_TAG_BYTES)
    && (forall k, n, d, body :: a.open(k, n, d, a.seal(k, n, d, body)) == Some(body))
    && (forall k, n, d, c :: a.open(k, n, d, c).Some? ==> |a.open(k, n, d, c).value| + AEAD_TAG_BYTES == |c|)
  }

  /** What both ends of a direction share. */
  datatype Route = Route(
    key: seq<byte>,
    noncePrefix: seq<byte>,
    class_: byte,
    direction: byte,
    epoch: nat,
    circuitId: seq<byte>)

  predicate KnownClass(c: byte) { c == 0 || c == 1 || c == 2 }

  predicate KnownDirection(d: byte) { d == 0 || d == 1 }

  predicate Good(r: Route)
  {
    && |r.key| == 32 && |r.noncePrefix| == 16 && KnownClass(r.class_) && KnownDirection(r.direction)
    && r.epoch <= MAX_UINT64 && |r.circuitId| == 16
  }

  // ---- the allocating form ----

  /** The part of the header that does not change from cell to cell. */
  function HeaderStart(r: Route): (h: seq<byte>)
    requires Good(r)
    ensures |h| == 28
  {
    [PROTOCOL_VERSION, r.class_, r.direction, 0] + BytesOf(r.epoch, 8) + r.circuitId
  }

  function Header(r: Route, counter: nat): (h: seq<byte>)
    requires Good(r)
    ensures |h| == CELL_HEADER_SIZE
  {
    HeaderStart(r) + BytesOf(counter, 8)
  }

  function Nonce(r: Route, counter: nat): seq<byte>
  {
    r.noncePrefix + BytesOf(counter, 8)
  }

  function Body(payload: seq<byte>, padding: seq<byte>): seq<byte>
  {
    BytesOf(|payload|, 2) + payload + padding
  }

  /** `seal`: the padding source and the sender's counter may fail. */
  function SealedPacket(a: Aead, domain: seq<byte>, r: Route, payload: seq<byte>, padding: Option<seq<byte>>,
                counter: Option<nat>): Option<seq<byte>>
  {
    if !Good(r) || |payload| > MAX_CELL_PAYLOAD then None
    else if |payload| < MAX_CELL_PAYLOAD && (padding.None? || |padding.value| != MAX_CELL_PAYLOAD - |payload|) then None
    else if counter.None? || counter.value > MAX_UINT64 then None
    else
      var body := Body(payload, if |payload| < MAX_CELL_PAYLOAD then padding.value else []);
      var header := Header(r, counter.value);
      var ciphertext := a.seal(r.key, Nonce(r, counter.value), domain + header, body);
      if |ciphertext| != CELL_BODY_SIZE + AEAD_TAG_BYTES then None else Some(header + ciphertext)
  }

  datatype Opened = Opened(counter: nat, payload: seq<byte>, body: seq<byte>)

  /** `open`, up to the point where the authenticated counter goes to the receiver: each
      header field is read and compared. */
  function OpenedPacket(a: Aead, domain: seq<byte>, r: Route, packet: seq<byte>): Option<Opened>
  {
    if |packet| != CELL_SIZE then None else
    var header := packet[..CELL_HEADER_SIZE];
    if header[0] != PROTOCOL_VERSION || !KnownClass(header[1]) || !KnownDirection(header[2]) || header[3] != 0 then None
    else if !Good(r) || header[1] != r.class_ || header[2] != r.direction then None
    else if NumberOf(header[4..12]) != r.epoch || header[12..28] != r.circuitId then None
    else
      var counter := NumberOf(header[28..36]);
      var body := a.open(r.key, Nonce(r, counter), domain + header, packet[CELL_HEADER_SIZE..]);
      if body.None? || |body.value| != CELL_BODY_SIZE then None else
      var length := NumberOf(body.value[..2]);
      if length > MAX_CELL_PAYLOAD then None else Some(Opened(counter, body.value[2..2 + length], body.value))
  }

  /** The header of a packet, field by field, against the header as 28 bytes. */
  lemma SameHeaderStart(r: Route, h: seq<byte>)
    requires Good(r) && |h| >= 28
    ensures h[..28] == HeaderStart(r) <==>
      && h[0] == PROTOCOL_VERSION && h[1] == r.class_ && h[2] == r.direction && h[3] == 0
      && NumberOf(h[4..12]) == r.epoch && h[12..28] == r.circuitId
  {
    var start := HeaderStart(r);
    assert start[0] == PROTOCOL_VERSION && start[1] == r.class_ && start[2] == r.direction && start[3] == 0;
    assert start[4..12] == BytesOf(r.epoch, 8) && start[12..28] == r.circuitId;
    Pow256Of8();
    NumberOfBytesOf(r.epoch, 8);
    BytesOfNumberOf(h[4..12]);
    assert h[..28] == [h[0], h[1], h[2], h[3]] + h[4..12] + h[12..28];
    assert h[..28][4..12] == h[4..12] && h[..28][12..28] == h[12..28];
  }

  lemma Pow256Of8()
    ensures Pow256(8) == MAX_UINT64 + 1
  {
    assert Pow256(4) == 0x1_0000_0000 by {
      assert Pow256(2) == 0x1_0000;
    }
    assert Pow256(6) == 0x1_0000_0000_0000;
  }

  /** Opening a sealed cell returns the payload and the counter, for every payload that
      fits and every padding. */
  lemma OpenAfterSeal(a: Aead, domain: seq<byte>, r: Route, payload: seq<byte>, padding: seq<byte>, counter: nat)
    requires Lawful(a) && Good(r) && |payload| + |padding| == MAX_CELL_PAYLOAD && counter <= MAX_UINT64
    ensures var packet := SealedPacket(a, domain, r, payload, Some(padding), Some(counter));
            && packet.Some? && |packet.value| == CELL_SIZE
            && OpenedPacket(a, domain, r, packet.value) == Some(Opened(counter, payload, Body(payload, padding)))
  {
    var body, header := Body(payload, padding), Header(r, counter);
    assert |payload| == MAX_CELL_PAYLOAD ==> padding == [];
    var packet := SealedPacket(a, domain, r, payload, Some(padding), Some(counter)).value;
    assert packet[..CELL_HEADER_SIZE] == header;
    assert header[..28] == HeaderStart(r) && header[28..36] == BytesOf(counter, 8);
    SameHeaderStart(r, header);
    Pow256Of8();
    NumberOfBytesOf(counter, 8);
    assert packet[CELL_HEADER_SIZE..] == a.seal(r.key, Nonce(r, counter), domain + header, body);
    assert Pow256(2) == 0x1_0000;
    NumberOfBytesOf(|payload|, 2);
    assert body[..2] == BytesOf(|payload|, 2) && body[2..2 + |payload|] == payload;
  }

  /** No two cells of a direction share a nonce, however many are sent. */
  lemma NoncesDiffer(r: Route, c: nat, d: nat)
    requires Good(r) && c <= MAX_UINT64 && d <= MAX_UINT64 && Nonce(r, c) == Nonce(r, d)
    ensures c == d
  {
    Pow256Of8();
    NumberOfBytesOf(c, 8);
    NumberOfBytesOf(d, 8);
    assert Nonce(r, c)[16..] == BytesOf(c, 8) && Nonce(r, d)[16..] == BytesOf(d, 8);
  }

  /** The authenticated header names one direction of one circuit in one epoch, and one cell. */
  lemma HeadersBind(r: Route, c: nat, s: Route, d: nat)
    requires Good(r) && Good(s) && c <= MAX_UINT64 && d <= MAX_UINT64 && Header(r, c) == Header(s, d)
    ensures r.class_ == s.class_ && r.direction == s.direction && r.epoch == s.epoch && r.circuitId == s.circuitId && c == d
  {
    var h := Header(r, c);
    assert h[..28] == HeaderStart(r) && h[..28] == HeaderStart(s);
    assert h[28..36] == BytesOf(c, 8) && h[28..36] == BytesOf(d, 8);
    SameHeaderStart(r, h);
    SameHeaderStart(s, h);
    Pow256Of8();
    NumberOfBytesOf(c, 8);
    NumberOfBytesOf(d, 8);
  }

  /** A packet is opened exactly when it is a cell of this direction that the cipher
      authenticates under the counter it carries, and then to what the cipher gives back. */
  lemma OpensOnlyOurs(a: Aead, domain: seq<byte>, r: Route, packet: seq<byte>)
    requires Lawful(a) && Good(r) && |packet| == 1200
    ensures var c := NumberOf(packet[28..36]);
      var body := a.open(r.key, r.noncePrefix + packet[28..36], domain + packet[..36], packet[36..]);
      var opened_ := OpenedPacket(a, domain, r, packet);
      && (opened_.Some? <==> packet[..28] == HeaderStart(r) && body.Some? && NumberOf(body.value[..2]) <= 1146)
      && (opened_.Some? ==> opened_.value.counter == c && opened_.value.payload == body.value[2..2 + NumberOf(body.value[..2])])
  {
    var h := packet[..36];
    assert h[..28] == packet[..28] && h[28..36] == packet[28..36];
    SameHeaderStart(r, h);
    BytesOfNumberOf(packet[28..36]);
  }

  // ---- the reusable form ----

  /** The bytes of a padding hook that filled the scratch, or its failure. */
  datatype Fill = Filled(bytes: seq<byte>) | FillFails

  /** The output range of a failed call holds zeros as far as it lies inside the buffer;
      the rest is as it was. */
  ghost predicate Wiped(was: seq<byte>, now: seq<byte>, from: nat, size: nat)
  {
    && |now| == |was|
    && forall i :: 0 <= i < |now| ==> now[i] == if from <= i < from + size then 0 else was[i]
  }

  class Context {
    const aead: Aead
    const domain: seq<byte>
    const route: Route
    const nonce: array<byte>
    const header: array<byte>
    const data: array<byte>
    const body: array<byte>
    const ciphertext: array<byte>
    var destroyed: bool
    /** The counter of the cell opened last. */
    var counter: Option<nat>

    ghost predicate Valid()
      reads this, header
    {
      && Good(route) && Lawful(aead) && Sized()
      && (!destroyed ==> header[..28] == HeaderStart(route))
    }

    /** Five buffers of their own, of the right sizes. */
    ghost predicate Sized()
    {
      && nonce.Length == 24 && header.Length == CELL_HEADER_SIZE && data.Length == |domain| + CELL_HEADER_SIZE
      && body.Length == CELL_BODY_SIZE && ciphertext.Length == CELL_BODY_SIZE + AEAD_TAG_BYTES
      && nonce != header && nonce != data && nonce != body && nonce != ciphertext
      && header != data && header != body && header != ciphertext
      && data != body && data != ciphertext && body != ciphertext
    }

    ghost function Scratch(): set<object>
    {
      {nonce, header, data, body, ciphertext}
    }

    constructor (aead: Aead, domain: seq<byte>, route: Route)
      requires Good(route) && Lawful(aead)
      ensures Valid() && !destroyed && fresh(Scratch())
      ensures this.aead == aead && this.domain == domain && this.route == route
    {
      this.aead, this.domain, this.route := aead, domain, route;
      nonce := new byte[24](_ => 0);
      header := new byte[CELL_HEADER_SIZE](_ => 0);
      data := new byte[|domain| + CELL_HEADER_SIZE](_ => 0);
      body := new byte[CELL_BODY_SIZE](_ => 0);
      ciphertext := new byte[CELL_BODY_SIZE + AEAD_TAG_BYTES](_ => 0);
      destroyed, counter := false, None;
      new;
      Set(header, [PROTOCOL_VERSION, route.class_, route.direction, 0], 0);
      WriteUint64(header, route.epoch, 4);
      Set(header, route.circuitId, 12);
    }

    /** The plaintext: length, payload, and as much padding as is needed. */
    method WriteBody(payload: seq<byte>, padding: seq<byte>)
      requires Sized() && |payload| <= MAX_CELL_PAYLOAD && |padding| == MAX_CELL_PAYLOAD
      modifies body
      ensures body[..] == Body(payload, padding[..MAX_CELL_PAYLOAD - |payload|])
    {
      hide BytesOf;
      var size := MAX_CELL_PAYLOAD - |payload|;
      Set(body, BytesOf(|payload|, 2), 0);
      Set(body, payload, 2);
      for i := 0 to size
        invariant body[..2 + |payload|] == BytesOf(|payload|, 2) + payload
        invariant body[2 + |payload|..2 + |payload| + i] == padding[..i]
      {
        body[2 + |payload| + i] := padding[i];
      }
      assert body[..] == body[..2 + |payload|] + body[2 + |payload|..2 + |payload| + size];
    }

    method WriteNonce(c: nat)
      requires Sized() && Good(route)
      modifies nonce
      ensures nonce[..] == Nonce(route, c)
    {
      hide BytesOf;
      Set(nonce, route.noncePrefix, 0);
      WriteUint64(nonce, c, 16);
    }

    /** The associated data of a cell to be sealed: the counter goes in behind the fixed
        part of the header. */
    method WriteData(c: nat)
      requires Valid() && !destroyed
      modifies data
      ensures data[..] == domain + Header(route, c)
    {
      hide BytesOf, HeaderStart;
      Set(data, domain, 0);
      Set(data, header[..], |domain|);
      WriteUint64(data, c, |domain| + 28);
      assert header[..] == HeaderStart(route) + header[28..];
    }

    method Clear(a: array<byte>, from: nat, to: nat)
      requires from <= to <= a.Length
      modifies a
      ensures a[..] == Overlay(old(a[..]), from, seq(to - from, _ => 0))
    {
      forall i | from <= i < to {
        a[i] := 0;
      }
    }

    method ClearTransient()
      requires Sized()
      modifies nonce, data, body, ciphertext
    {
      Clear(nonce, 0, nonce.Length);
      Clear(data, 0, data.Length);
      Clear(body, 0, body.Length);
      Clear(ciphertext, 0, ciphertext.Length);
    }

    /** A failed call wipes its output and is the context's last. */
    method Fail(output: array<byte>, from: nat, size: nat)
      requires Valid() && output !in Scratch()
      modifies this`destroyed, this`counter, output
      ensures Valid() && destroyed && counter == None && Wiped(old(output[..]), output[..], from, size)
    {
      if from <= output.Length {
        Clear(output, from, if output.Length < from + size then output.Length else from + size);
      }
      destroyed, counter := true, None;
    }

    /** `sealInto`: writes the packet that `seal` returns for the same inputs, nothing
        else, and fails exactly when `seal` does or the context or its output is unfit. */
    method SealInto(output: array<byte>, payload: seq<byte>, offset: nat, fill: Fill, next: Option<nat>)
      returns (ok: bool)
      requires Valid() && output !in Scratch() && (fill.Filled? ==> |fill.bytes| == MAX_CELL_PAYLOAD)
      modifies this, Scratch(), output
      ensures Valid()
      ensures var padding := if fill.Filled? && |payload| <= MAX_CELL_PAYLOAD
                             then Some(fill.bytes[..MAX_CELL_PAYLOAD - |payload|]) else None;
              var packet := SealedPacket(aead, domain, route, payload, padding, next);
              && (ok <==> !old(destroyed) && offset + CELL_SIZE <= output.Length && packet.Some?)
              && (ok ==> |packet.value| == CELL_SIZE && output[..] == Overlay(old(output[..]), offset, packet.value))
      ensures destroyed == !ok && (!ok ==> Wiped(old(output[..]), output[..], offset, CELL_SIZE))
    {
      hide BytesOf, HeaderStart, Lawful;
      if destroyed || offset + CELL_SIZE > output.Length || |payload| > MAX_CELL_PAYLOAD
         || (|payload| < MAX_CELL_PAYLOAD && fill.FillFails?) || next.None? || next.value > MAX_UINT64 {
        Fail(output, offset, CELL_SIZE);
        return false;
      }
      SealCell(output, payload, offset, if fill.Filled? then fill.bytes else seq(MAX_CELL_PAYLOAD, _ => 0), next.value);
      return true;
    }

    method SealCell(output: array<byte>, payload: seq<byte>, offset: nat, padding: seq<byte>, c: nat)
      requires Valid() && !destroyed && output !in Scratch() && offset + CELL_SIZE <= output.Length
      requires |payload| <= MAX_CELL_PAYLOAD && |padding| == MAX_CELL_PAYLOAD && c <= MAX_UINT64
      modifies nonce, data, body, ciphertext, output
      ensures var packet := SealedPacket(aead, domain, route, payload, Some(padding[..MAX_CELL_PAYLOAD - |payload|]), Some(c));
              && packet.Some? && |packet.value| == CELL_SIZE
              && output[..] == Overlay(old(output[..]), offset, packet.value)
    {
      hide BytesOf, HeaderStart;
      WriteBody(payload, padding);
      WriteNonce(c);
      WriteData(c);
      var sealed := aead.seal(route.key, nonce[..], data[..], body[..]);
      Set(ciphertext, sealed, 0);
      assert ciphertext[..] == sealed;
      assert data[|domain|..] == Header(route, c);
      ghost var was := output[..];
      Set(output, data[|domain|..], offset);
      Set(output, ciphertext[..], offset + CELL_HEADER_SIZE);
      OverlayNext(was, offset, Header(route, c), sealed);
      assert |payload| == MAX_CELL_PAYLOAD ==> padding[..MAX_CELL_PAYLOAD - |payload|] == [];
      ClearTransient();
    }

    /** `openInto`: a live opener accepts exactly the packets `open` authenticates, with the
        same counter and payload; the first rejection is its end. */
    method OpenInto(packet: seq<byte>, output: array<byte>) returns (length: Option<nat>)
      requires Valid() && output !in Scratch()
      modifies this, Scratch(), output
      ensures Valid()
      ensures var cell := OpenedPacket(aead, domain, route, packet);
              && (length.Some? <==> !old(destroyed) && output.Length == CELL_BODY_SIZE && cell.Some?)
              && (length.Some? ==>
                    && counter == Some(cell.value.counter) && length.value == |cell.value.payload|
                    && output[..] == cell.value.body && output[2..2 + length.value] == cell.value.payload)
      ensures destroyed == length.None?
      ensures length.None? ==> counter == None && Wiped(old(output[..]), output[..], 0, output.Length)
    {
      hide BytesOf, HeaderStart, NumberOf, Lawful;
      counter := None;
      if destroyed || output.Length != CELL_BODY_SIZE || |packet| != CELL_SIZE {
        Fail(output, 0, output.Length);
        return None;
      }
      SameHeaderStart(route, packet[..CELL_HEADER_SIZE]);
      assert packet[..CELL_HEADER_SIZE][..28] == packet[..28];
      assert packet[..CELL_HEADER_SIZE][28..36] == packet[28..36];
      var same := SameHeader(packet);
      if !same {
        Fail(output, 0, output.Length);
        return None;
      }
      var c := ReadUint64(packet, 28);
      var plain := Decrypt(packet, c);
      if plain.None? || NumberOf(plain.value[..2]) > MAX_CELL_PAYLOAD {
        Fail(output, 0, output.Length);
        return None;
      }
      length := Some(NumberOf(plain.value[..2]));
      Set(output, body[..], 0);
      counter := Some(c);
      ClearTransient();
    }

    /** The loop over the 28 fixed bytes. */
    method SameHeader(packet: seq<byte>) returns (same: bool)
      requires Valid() && !destroyed && |packet| == CELL_SIZE
      ensures same <==> packet[..28] == HeaderStart(route)
    {
      hide HeaderStart, Lawful;
      for i := 0 to 28
        invariant packet[..i] == HeaderStart(route)[..i]
      {
        assert header[i] == HeaderStart(route)[i];
        if packet[i] != header[i] {
          assert packet[..28][i] != HeaderStart(route)[i];
          return false;
        }
      }
      return true;
    }

    /** Fills nonce, associated data and ciphertext from the packet and opens it into the
        body buffer. */
    method Decrypt(packet: seq<byte>, c: nat) returns (plain: Option<seq<byte>>)
      requires Valid() && !destroyed && |packet| == CELL_SIZE
      modifies nonce, data, body, ciphertext
      ensures plain == aead.open(route.key, Nonce(route, c), domain + packet[..CELL_HEADER_SIZE], packet[CELL_HEADER_SIZE..])
      ensures plain.Some? ==> |plain.value| == CELL_BODY_SIZE && body[..] == plain.value
    {
      hide BytesOf, HeaderStart;
      WriteNonce(c);
      Set(data, domain, 0);
      Set(data, packet[..CELL_HEADER_SIZE], |domain|);
      assert data[..] == domain + packet[..CELL_HEADER_SIZE];
      Set(ciphertext, packet[CELL_HEADER_SIZE..], 0);
      assert ciphertext[..] == packet[CELL_HEADER_SIZE..];
      plain := aead.open(route.key, nonce[..], data[..], ciphertext[..]);
      if plain.Some? {
        Set(body, plain.value, 0);
      }
    }
  }
}
