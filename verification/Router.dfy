/**
 Relaying of handshakes and holepunches between a client and the host of a target, over
 up to two relays.  A handler reads the forwarding entry of the target and answers one
 packet with at most one packet.
 */
module Router {
  import opened Options

  const FROM_CLIENT: nat := 0
  const FROM_SERVER: nat := 1
  const FROM_RELAY: nat := 2
  const FROM_SECOND_RELAY: nat := 3
  const REPLY: nat := 4

  type Address = nat
  type Target = nat

  /** What a handshake or a holepunch carries end to end.  Only the client that asks and a
      host that answers for a target write one; relays copy it. */
  datatype Cargo = OfClient(client: Address, body: nat) | OfHost(host: Address, target: Target, body: nat)

  datatype Message = Message(
    mode: nat,
    cargo: Option<Cargo>,
    peerAddress: Option<Address>,
    relayAddress: Option<Address>)

  /** A request that travels on or the response that ends it; all keep the request's id and
      target.  A value that is absent or does not decode is `None`. */
  datatype Packet = Packet(src: Address, dst: Address, id: nat, target: Target, value: Option<Message>)

  /** A forwarding entry: the handlers of a local server, and the relay announced for the
      target. */
  datatype Entry = Entry(onHandshake: bool, onHolepunch: bool, relay: Option<Address>)

  function Or(a: Option<Address>, b: Option<Address>): Option<Address> { if a.Some? then a else b }

  function To(p: Packet, dst: Address, value: Message): Option<Packet>
  {
    Some(Packet(p.dst, dst, p.id, p.target, Some(value)))
  }

  /** `onpeerhandshake` at node `p.dst`; `answer` is what a local server would produce. */
  function OnHandshake(p: Packet, entry: Option<Entry>, answer: Option<nat>): Option<Packet>
  {
    if p.value.None? then None else
    var m := p.value.value;
    if entry.Some? && entry.value.onHandshake then
      if m.cargo.None? || answer.None? then None else
      var noise := Some(OfHost(p.dst, p.target, answer.value));
      if m.mode == FROM_CLIENT then
        To(p, p.src, Message(REPLY, noise, None, None))
      else if m.mode == FROM_RELAY then
        To(p, p.src, Message(FROM_SERVER, noise, m.peerAddress, None))
      else if m.mode == FROM_SECOND_RELAY && m.relayAddress.Some? then
        To(p, m.relayAddress.value, Message(FROM_SERVER, noise, m.peerAddress, None))
      else None
    else
      var relay := if entry.Some? then entry.value.relay else None;
      if m.cargo.None? then None
      else if m.mode == FROM_CLIENT then
        var next := Or(m.relayAddress, relay);
        if next.None? then Some(Packet(p.dst, p.src, p.id, p.target, None))
        else To(p, next.value, Message(FROM_RELAY, m.cargo, Some(p.src), None))
      else if m.mode == FROM_RELAY && relay.Some? then
        To(p, relay.value, Message(FROM_SECOND_RELAY, m.cargo, m.peerAddress, Some(p.src)))
      else if m.mode == FROM_SERVER && m.peerAddress.Some? then
        To(p, m.peerAddress.value, Message(REPLY, m.cargo, Some(p.src), None))
      else None
  }

  /** `onpeerholepunch` at node `p.dst`.  A response without a peer address goes back to
      the sender. */
  function OnHolepunch(p: Packet, entry: Option<Entry>, answer: Option<nat>): Option<Packet>
  {
    if p.value.None? then None else
    var m := p.value.value;
    var relay := if entry.Some? then entry.value.relay else None;
    if m.mode == FROM_CLIENT then
      var next := Or(m.peerAddress, relay);
      if next.None? then None
      else To(p, next.value, Message(FROM_RELAY, m.cargo, Some(p.src), None))
    else if m.mode == FROM_RELAY then
      if !(entry.Some? && entry.value.onHolepunch) || m.peerAddress.None? || answer.None? then None
      else To(p, p.src, Message(FROM_SERVER, Some(OfHost(p.dst, p.target, answer.value)), m.peerAddress, None))
    else if m.mode == FROM_SERVER then
      To(p, Or(m.peerAddress, Some(p.src)).value, Message(REPLY, m.cargo, Some(p.src), None))
    else None
  }

  // ---- how far a request travels ----

  datatype Kind = Handshake | Holepunch

  function Handle(kind: Kind, p: Packet, entry: Option<Entry>, answer: Option<nat>): Option<Packet>
  {
    if kind.Handshake? then OnHandshake(p, entry, answer) else OnHolepunch(p, entry, answer)
  }

  /** How many more packets a packet can bring about. */
  function Left(kind: Kind, p: Packet): nat
  {
    if p.value.None? then 0 else
    var mode := p.value.value.mode;
    if mode == FROM_CLIENT then if kind.Handshake? then 4 else 3
    else if mode == FROM_RELAY then if kind.Handshake? then 3 else 2
    else if mode == FROM_SECOND_RELAY then if kind.Handshake? then 2 else 0
    else if mode == FROM_SERVER then 1
    else 0
  }

  /** Each packet is some node's answer to the one before; forwarding entries and servers
      may be anything, and different at every hop. */
  ghost predicate Chain(kind: Kind, packets: seq<Packet>)
  {
    forall i :: 0 <= i < |packets| - 1 ==> Follows(kind, packets[i], packets[i + 1])
  }

  ghost predicate Follows(kind: Kind, p: Packet, q: Packet)
  {
    exists entry, answer :: Handle(kind, p, entry, answer) == Some(q)
  }

  lemma Advances(kind: Kind, p: Packet, q: Packet)
    requires Follows(kind, p, q)
    ensures Left(kind, q) < Left(kind, p) && q.id == p.id && q.target == p.target && q.src == p.dst
  {
  }

  lemma {:induction false} ChainsAreShort(kind: Kind, packets: seq<Packet>)
    requires Chain(kind, packets) && packets != []
    ensures |packets| <= Left(kind, packets[0]) + 1
  {
    if |packets| > 1 {
      Advances(kind, packets[0], packets[1]);
      ChainsAreShort(kind, packets[1..]);
    }
  }

  /** No handshake takes more than five packets and no holepunch more than four, whatever
      packet it starts with. */
  lemma {:induction false} FewMessages(kind: Kind, packets: seq<Packet>)
    requires Chain(kind, packets)
    ensures |packets| <= if kind.Handshake? then 5 else 4
  {
    if packets != [] {
      ChainsAreShort(kind, packets);
    }
  }

  // ---- honest runs ----

  datatype Request = Request(kind: Kind, client: Address, to: Address, target: Target)

  /** All requests ever made, and all packets ever sent: a packet may be delivered late,
      again, or never. */
  datatype Net = Net(requests: seq<Request>, packets: set<Packet>, hosts: set<Host>)

  /** A node that had a server for the target when a packet reached it. */
  datatype Host = Host(kind: Kind, at: Address, target: Target)

  predicate IsServer(kind: Kind, entry: Option<Entry>)
  {
    entry.Some? && if kind.Handshake? then entry.value.onHandshake else entry.value.onHolepunch
  }

  datatype Move =
    | Ask(request: Request, body: nat, peerAddress: Option<Address>, relayAddress: Option<Address>)
    | Deliver(packet: Packet, entry: Option<Entry>, answer: Option<nat>)

  /** `peerHandshake` and `peerHolepunch` send; a node handles what reaches it. */
  function Next(n: Net, move: Move): Net
  {
    match move
    case Ask(r, body, peerAddress, relayAddress) =>
      var relay := if r.kind.Handshake? then relayAddress else None;
      var m := Message(FROM_CLIENT, Some(OfClient(r.client, body)), peerAddress, relay);
      Net(n.requests + [r], n.packets + {Packet(r.client, r.to, |n.requests|, r.target, Some(m))}, n.hosts)
    case Deliver(p, entry, answer) =>
      if p !in n.packets || p.id >= |n.requests| then n else
      var kind := n.requests[p.id].kind;
      var out := Handle(kind, p, entry, answer);
      Net(n.requests,
          n.packets + (if out.Some? then {out.value} else {}),
          n.hosts + (if IsServer(kind, entry) then {Host(kind, p.dst, p.target)} else {}))
  }

  ghost function Run(n: Net, moves: seq<Move>): Net
    decreases |moves|
  {
    if moves == [] then n else Run(Next(n, moves[0]), moves[1..])
  }

  const QUIET: Net := Net([], {}, {})

  /** The client's test of a response to its request, and the address it then takes for the
      server's. */
  predicate Accepts(r: Request, p: Packet)
  {
    && p.value.Some? && p.value.value.mode == REPLY && p.src == r.to
    && (r.kind.Handshake? ==> p.value.value.cargo.Some?)
  }

  function ServerAddress(r: Request, p: Packet): Address
    requires p.value.Some?
  {
    Or(p.value.value.peerAddress, Some(r.to)).value
  }

  /** The cargo was written at this address, by a server of the request's target. */
  ghost predicate FromHost(r: Request, hosts: set<Host>, m: Message, at: Address)
  {
    && m.cargo.Some? && m.cargo.value.OfHost? && m.cargo.value.host == at && m.cargo.value.target == r.target
    && Host(r.kind, at, r.target) in hosts
  }

  /** Where a request's packet can be, and what it carries there. */
  ghost predicate Placed(r: Request, hosts: set<Host>, p: Packet)
  {
    && p.target == r.target
    && (p.value.Some? ==>
      var m := p.value.value;
      && (m.mode == FROM_CLIENT ==> p.src == r.client && p.dst == r.to)
      && (m.mode == FROM_RELAY ==> p.src == r.to && m.peerAddress == Some(r.client))
      && (m.mode == FROM_SECOND_RELAY ==> m.peerAddress == Some(r.client) && m.relayAddress == Some(r.to))
      && (m.mode == FROM_SERVER ==> p.dst == r.to && m.peerAddress == Some(r.client) && FromHost(r, hosts, m, p.src))
      && (m.mode == REPLY ==> p.src == r.to && p.dst == r.client && FromHost(r, hosts, m, ServerAddress(r, p))))
  }

  ghost predicate Honest(n: Net)
  {
    forall p :: p in n.packets ==> p.id < |n.requests| && Placed(n.requests[p.id], n.hosts, p)
  }

  lemma HandlePlaces(r: Request, hosts: set<Host>, p: Packet, entry: Option<Entry>, answer: Option<nat>)
    requires Placed(r, hosts, p)
    ensures var out := Handle(r.kind, p, entry, answer);
            var hosts' := hosts + (if IsServer(r.kind, entry) then {Host(r.kind, p.dst, p.target)} else {});
            out.Some? ==> out.value.id == p.id && Placed(r, hosts', out.value)
  {
  }

  lemma NextHonest(n: Net, move: Move)
    requires Honest(n)
    ensures Honest(Next(n, move))
  {
    match move
    case Ask(_, _, _, _) =>
    case Deliver(p, entry, answer) =>
      if p in n.packets && p.id < |n.requests| {
        HandlePlaces(n.requests[p.id], n.hosts, p, entry, answer);
        hide Handle;
      }
  }

  lemma {:induction false} RunHonest(n: Net, moves: seq<Move>)
    requires Honest(n)
    ensures Honest(Run(n, moves))
    decreases |moves|
  {
    if moves != [] {
      NextHonest(n, moves[0]);
      RunHonest(Next(n, moves[0]), moves[1..]);
    }
  }

  /** In every run of honest nodes, with any forwarding tables, a response the client
      accepts comes from the node it asked, is addressed to the client, and carries what a
      host of the target wrote, whose address the client takes for the server's. */
  lemma {:induction false} AcceptedRepliesAreGenuine(moves: seq<Move>, p: Packet)
    requires p in Run(QUIET, moves).packets
    ensures p.id < |Run(QUIET, moves).requests|
    ensures var n := Run(QUIET, moves);
            var r := n.requests[p.id];
            Accepts(r, p) ==>
              && p.src == r.to && p.dst == r.client && p.target == r.target
              && FromHost(r, n.hosts, p.value.value, ServerAddress(r, p))
  {
    RunHonest(QUIET, moves);
  }

  // ---- holepunches and handshakes do get through ----

  /** A host that the client names, or that the relay knows, answers the client that asks the
      relay, and the client accepts. */
  lemma HolepunchCompletes(p: Packet, relay: Option<Entry>, at: Option<Entry>, host: Address, answer: nat)
    returns (packets: seq<Packet>)
    requires p.value.Some? && p.value.value.mode == FROM_CLIENT && IsServer(Holepunch, at)
    requires p.value.value.peerAddress == Some(host)
      || (p.value.value.peerAddress == None && relay.Some? && relay.value.relay == Some(host))
    ensures Chain(Holepunch, packets) && |packets| == 4 && packets[0] == p
    ensures packets[1].dst == host && packets[1].value.value.cargo == p.value.value.cargo
    ensures packets[1].value.value.peerAddress == Some(p.src)
    ensures var last, r := packets[3], Request(Holepunch, p.src, p.dst, p.target);
            && Accepts(r, last) && last.dst == p.src && ServerAddress(r, last) == host
            && last.value.value.cargo == Some(OfHost(host, p.target, answer))
  {
    var p1 := Handle(Holepunch, p, relay, None).value;
    var p2 := Handle(Holepunch, p1, at, Some(answer)).value;
    var p3 := Handle(Holepunch, p2, relay, None).value;
    assert Follows(Holepunch, p, p1) && Follows(Holepunch, p1, p2) && Follows(Holepunch, p2, p3);
    packets := [p, p1, p2, p3];
  }

  /** A relay that the client names itself is used even by a node that knows nothing of the
      target. */
  lemma HandshakeByName(p: Packet, asked: Option<Entry>, at: Option<Entry>, host: Address, answer: nat)
    returns (packets: seq<Packet>)
    requires p.value.Some? && p.value.value.mode == FROM_CLIENT && p.value.value.cargo.Some?
    requires p.value.value.relayAddress == Some(host) && !IsServer(Handshake, asked) && IsServer(Handshake, at)
    ensures Chain(Handshake, packets) && packets != [] && packets[0] == p
    ensures var last, r := packets[|packets| - 1], Request(Handshake, p.src, p.dst, p.target);
            && Accepts(r, last) && last.dst == p.src && ServerAddress(r, last) == host
            && last.value.value.cargo == Some(OfHost(host, p.target, answer))
  {
    var p1 := Handle(Handshake, p, asked, None).value;
    var p2 := Handle(Handshake, p1, at, Some(answer)).value;
    var p3 := Handle(Handshake, p2, asked, None).value;
    assert Follows(Handshake, p, p1) && Follows(Handshake, p1, p2) && Follows(Handshake, p2, p3);
    packets := [p, p1, p2, p3];
  }

  /** A node that knows neither server nor relay of the target says so to the client. */
  lemma HandshakeInVain(p: Packet, asked: Option<Entry>)
    requires p.value.Some? && p.value.value.mode == FROM_CLIENT && p.value.value.cargo.Some?
    requires p.value.value.relayAddress == None && (asked.Some? ==> !asked.value.onHandshake && asked.value.relay == None)
    ensures Handle(Handshake, p, asked, None) == Some(Packet(p.dst, p.src, p.id, p.target, None))
  {
  }

  /** What the relays on the way know: none if the client asks the host itself, else the
      entries of the one or two relays, each pointing at the next node. */
  ghost predicate Path(entries: seq<Option<Entry>>, nodes: seq<Address>)
  {
    && |entries| == |nodes| && 1 <= |nodes| <= 3
    && IsServer(Handshake, entries[|nodes| - 1])
    && forall i :: 0 <= i < |nodes| - 1 ==>
      !IsServer(Handshake, entries[i]) && entries[i].Some? && entries[i].value.relay == Some(nodes[i + 1])
  }

  /** A host at the end of at most two relays answers the client that asks the first node,
      and the client accepts. */
  lemma HandshakeCompletes(p: Packet, entries: seq<Option<Entry>>, nodes: seq<Address>, answer: nat)
    returns (packets: seq<Packet>)
    requires Path(entries, nodes)
    requires p.value.Some? && p.value.value.mode == FROM_CLIENT && p.value.value.cargo.Some?
    requires p.value.value.relayAddress == None && p.dst == nodes[0]
    ensures Chain(Handshake, packets) && packets != [] && packets[0] == p
    ensures var last, r := packets[|packets| - 1], Request(Handshake, p.src, nodes[0], p.target);
            && Accepts(r, last) && last.dst == p.src
            && ServerAddress(r, last) == nodes[|nodes| - 1]
            && last.value.value.cargo == Some(OfHost(nodes[|nodes| - 1], p.target, answer))
  {
    packets := [p];
    var p1 := Handle(Handshake, p, entries[0], Some(answer)).value;
    assert Follows(Handshake, p, p1);
    packets := [p, p1];
    if |nodes| > 1 {
      var p2 := Handle(Handshake, p1, entries[1], Some(answer)).value;
      assert Follows(Handshake, p1, p2);
      packets := [p, p1, p2];
      if |nodes| > 2 {
        var p3 := Handle(Handshake, p2, entries[2], Some(answer)).value;
        assert Follows(Handshake, p2, p3);
        packets := [p, p1, p2, p3];
      }
      var back := packets[|packets| - 1];
      var end := Handle(Handshake, back, entries[0], None).value;
      assert Follows(Handshake, back, end);
      packets := packets + [end];
    }
  }
}
