# Private routing transport, modelled and proved

This project models the private-routing transport of a peer-to-peer DHT node and proves what
its flow control, link layer, budgets, counters and cell format promise. Two smaller cores
beside it, the handshake router and the raw-stream index, are modelled too.

A *route* runs from a source over its own physical leg to an *entry*, and from there over a
circuit, shared with up to 63 other sources, to a *destination*. Credit is counted in cells: a
512-cell window per stream and a 2048-cell window per circuit, in each direction. Sources ask
the entry for circuit credit (DEMAND), get it (CREDIT), spend it (DATA), and give it back
(RELEASE) or cancel the demand; the destination returns what it has consumed.

| files | what they hold |
|---|---|
| `Frames`, `PoolLeg`, `Endpoint`, `SharedCircuit` | the frames, one stream's state and every handler of the entry and the destination, as transitions on one stream's slot and the state its circuit shares |
| `CircuitRuns` | whole runs with arbitrary frames from every source leg |
| `LinkedRuns` | the same runs with the shared link behind the send scheduler |
| `SourceLeg`, `HonestRuns` | the honest source, and whole runs of honest sources beside dishonest ones |
| `Delivery`, `Endings` | what readers are given in those runs, and how ends and resets reach the other side |
| `Effects`, `Progress` | what frames, grants and acts bring about, and that the steps of the runs take place |
| `LinkedJourneys` | the honest runs with the shared link behind the send scheduler |
| `RouteStream`, `ReceiveRing` | the logical stream as an object: credit counters and fragmentation, and the 512-slot receive ring; both refine the transitions above |
| `WriteRuns` | writes of that object within whole runs |
| `CreditPool` | the credit pool of a circuit, with re-entrant grant callbacks |
| `SendQueues`, `CircuitLink`, `Reassembly` | the link: round-robin scheduler, jobs and batches, cell reassembly |
| `Sums`, `LedgerTree`, `PeerLedger`, `Narrowing` | the ledger tree and the atomic narrowing |
| `MemoryTree`, `PeerMemory`, `BranchSlots` | nested memory pools and branch slots |
| `Bits`, `ReplayWindow`, `OrderedReceiver` | the counters |
| `BigEndian`, `CellCodec` | the cell format, allocating and in place |
| `LinkEnds` | one direction of a link from selected job to payload handed out |
| `Router`, `RawStreamSet` | handshake and holepunch relaying; the stream index |
| `Limits`, `Options` | shared bounds, and the option type |

The main results, in one line each:

- Whatever frames the sources send, in every run, the six windows of a circuit are conserved
  exactly, at most 2048 unconsumed cells per circuit and 512 per stream wait at the destination,
  and nothing on the shared link is refused (`CircuitRuns.WhateverSourcesSend`).
- The one thing these runs assume of the shared link, that first cells of new streams arrive in
  the order the streams were created, is derived from the scheduler
  (`LinkedRuns.SchedulerSuffices`); the results on honest legs below hold behind the scheduler
  too (`LinkedJourneys.HonestBehindScheduler`).
- Whatever dishonest sources send on the same circuit, no frame of an honest leg is ever found
  invalid at either end, and the entry's books of that leg match the source's: credit of both
  windows in both directions, demands, grants and cancellations (`HonestRuns.HonestRunsAreClean`).
- In those runs every reader of an honest leg has been given a prefix of what was written, and
  everything once it was given end-of-stream (`Delivery.ReadersSeePrefixes`). An end that was
  announced and is no longer under way has reached the reader, who is told of it as soon as
  nothing is left to read; a stream that is reset or whose leg is closed takes the other side
  with it (`Endings.EveryEndReaches`, `Endings.ClosedLegsAreHeard`).
- A writer with stream credit and without circuit credit has asked for some, and it is under
  way, owed by a pool or being granted (`WriteRuns.WaitingWriterAsks`,
  `Effects.PolledStreamAsks`).
- A write, whatever reaches the stream at its awaits, is one turn of polling and sending after
  another, spends credit cell by cell and puts the bytes of its data on the leg in order, each
  once (`RouteStream.Stream.SendData`); in every run it is what the source of the run does
  (`WriteRuns.WriteInEveryRun`).
- The pool conserves its credit and its queue is exact at every callback, whatever callbacks
  do (`CreditPool.RunKeeps`). Distribution ends once callbacks demand no more, after at most as
  many callbacks as cells are wanted (`CreditPool.EndsWhenQuiet`, `CreditPool.CallbacksBounded`);
  callbacks that return their credit and demand it again keep it going for ever
  (`CreditPool.NeverSettles`). Each operation has exactly the effect of its own change and of
  that distribution (`CreditPool.Pool.Distribute`), which is work-conserving and, left alone,
  max-min fair (`CreditPool.SettlesFairly`).
- The scheduler keeps each stream's order, starts streams in creation order and bounds waiting
  (`SendQueues.FreshInCreationOrder`, `SendQueues.BoundedWait`); every job is settled exactly
  once, even when the link dies while sealing (`CircuitLink.Link.DeadLinkOwesNothing`); for
  every split into batches and chunks the payloads handed out are the first jobs selected
  (`LinkEnds.HandOut`).
- Ledgers and memory pools conserve what they hold through every operation, and a batch is
  narrowed whole or not at all, exactly when the result is a sound tree
  (`Narrowing.NarrowReservations`, `Narrowing.LocalTestSuffices`).

How the outside appears: a timer, a clock reading, an application, a random roll or the answer
of a server is a step that may happen or a parameter of a method. A callback into foreign code
is a list of operations carried out at the point where the source makes the call. The AEAD
cipher is any pair of functions for which opening undoes sealing.

## Model

| member | source | states |
|---|---|---|
| `CircuitRuns.WhateverSourcesSend` | lib/private/private-peer-controller.js:1830-1898 | for every run with arbitrary source frames: the six conservation laws hold, held cells stay within 2048 per circuit and 512 per stream, and no frame on the shared link is refused |
| `CircuitRuns.RunKeeps` | lib/private/private-peer-controller.js:2134-2318 | the invariant of circuit and streams holds after any sequence of steps |
| `CircuitRuns.StepKeeps` | lib/private/private-peer-controller.js:2134-2318 | every single step of entry, destination, link or application keeps the invariant |
| `CircuitRuns.ArriveKeeps` | lib/private/private-peer-controller.js:2134-2211 | any frame at all on any leg, accepted or refused, keeps the invariant of the whole circuit |
| `CircuitRuns.CloseKeeps` | lib/private/private-peer-controller.js:2112-2126 | closing a leg at any moment keeps the invariant of the whole circuit |
| `CircuitRuns.DeliverKeeps` | lib/private/private-peer-controller.js:1830-1881 | delivery of the next frame of any stream at the destination keeps the invariant and is never refused; what it brings about is in `Endings` and `Effects` |
| `CircuitRuns.OpensAreNewest` | lib/private/private-peer-controller.js:1900-1902 | when fresh streams start in creation order, each OPEN carries an id above every id opened before |
| `CircuitRuns.ActivateKeeps` | lib/private/private-peer-controller.js:2082-2132 | a new stream, with the next even id, keeps the invariant |
| `SharedCircuit.FromSourceKeeps` | lib/private/private-peer-controller.js:2134-2211 | an accepted source frame keeps the stream's windows and the order of its end markers |
| `SharedCircuit.FromSourceBalances` | lib/private/private-peer-controller.js:2134-2211 | an accepted source frame neither creates nor destroys a cell of any of the six windows |
| `SharedCircuit.CloseLegKeeps` | lib/private/private-peer-controller.js:2112-2126 | the leg's close listener never overflows a window and leaves the retired stream consistent |
| `SharedCircuit.CloseLegBalances` | lib/private/private-peer-controller.js:2112-2126 | the close listener returns exactly what the leg held to pool and reverse window |
| `SharedCircuit.GrantSound` | lib/private/private-peer-controller.js:1355-1384 | a pool grant moves cells from `available` to the leg and nowhere else |
| `SharedCircuit.FromDestinationSound` | lib/private/private-peer-controller.js:2213-2301 | no frame of the destination is refused by the entry, also for retired ids, and all windows balance |
| `SharedCircuit.FromEntrySound` | lib/private/private-peer-controller.js:1830-1881 | no frame of the entry is refused by the destination, also late DATA for closed streams, and all windows balance |
| `SharedCircuit.DstRequestSound` | lib/private/private-peer-controller.js:1536-1551 | a destination stream's demand is always one its pool accepts |
| `SharedCircuit.DstReleaseSound` | lib/private/private-peer-controller.js:1580-1601 | a destination stream gives back exactly what it holds |
| `SharedCircuit.DstGrantKeeps` | lib/private/private-peer-controller.js:1553-1566 | a pool grant to a destination stream, with the release it may trigger, never throws and keeps the stream |
| `SharedCircuit.DstActSound` | lib/private/private-peer-controller.js:1472-1792 | every act of the destination application or its timers keeps the stream and balances the windows |
| `SharedCircuit.ConsumedMoves` | lib/private/private-peer-controller.js:1883-1898 | consumption moves cells into pending and batched returns without loss |
| `SharedCircuit.ReturnReverseMoves` | lib/private/private-peer-controller.js:2303-2318 | the same for the entry's reverse window |
| `Endings.ClosedLegsAreHeard` | lib/private/private-peer-controller.js:2112-2126 | in every run, whatever the sources send: a closed or reset leg has no live stream at the destination once its frames have arrived, unless both directions had ended; an announced end has reached a live stream by then; a live reader with nothing left to read after the end has been told |
| `Endings.RunEnds` | lib/private/private-peer-controller.js:1787-1791 | in every run, of every stream: a RESET or an end that one side announced is under way, noted, or too late |
| `Endings.FromEntryEnds` | lib/private/private-peer-controller.js:1830-1881 | every frame that arrives at the destination keeps that |
| `Endings.CloseLegEnds` | lib/private/private-peer-controller.js:2112-2126 | the close of a leg keeps that, also where it sends no RESET |
| `Effects.ResetDestroys` | lib/private/private-peer-controller.js:1864-1868 | a RESET that arrives destroys a live stream, which will not answer it with another |
| `Effects.FinTold` | lib/private/private-peer-controller.js:1763-1767 | a FIN that arrives is told at once to a reader with nothing left to read |
| `Effects.DataKept` | lib/private/private-peer-controller.js:1731-1761 | a live stream keeps every cell it has credit for, and hands it to a waiting reader |
| `Effects.OpenAnswered` | lib/private/private-peer-controller.js:1900-1926 | the next OPEN makes a fresh live stream, or is answered with a RESET |
| `Effects.RefusedIsClosed` | lib/private/private-peer-controller.js:2112-2211 | a frame that is refused costs the leg its life |
| `Effects.EndedDemandsNoMore` | lib/private/private-peer-controller.js:2134-2150 | a source that has ended can ask for no more credit and send no more data |
| `Effects.CloseCloses` | lib/private/private-peer-controller.js:2112-2126 | a closed leg holds and wants nothing; all it held is free again, and all it owed is returned |
| `Effects.GrantGives` | lib/private/private-peer-controller.js:1355-1384 | a grant moves that many cells to a live leg and tells its source |
| `Effects.DstRequestAsks` | lib/private/private-peer-controller.js:1536-1551 | a live stream that may write has more than half the window or asks for the rest of it, once |
| `Effects.DstGrantGives` | lib/private/private-peer-controller.js:1553-1566 | a grant is kept by a stream that can use it and given back whole by one that cannot |
| `Effects.DstReleaseFrees` | lib/private/private-peer-controller.js:1580-1601 | a release leaves nothing held or asked for |
| `Effects.TeardownSpeaks` | lib/private/private-peer-controller.js:1704-1729 | a stream torn down sends a RESET unless both directions had ended or it was reset itself |
| `Effects.SharedReturnsInBatches` | lib/private/private-peer-controller.js:1883-1898 | entry and destination return circuit credit in batches of 32, or whole when flushed |
| `Effects.PolledStreamAsks` | lib/private/private-peer-controller.js:1472-1551 | in every run: a destination stream that polled, and has sent nothing and been stripped of nothing since, is owed credit whenever it could write and has none |
| `Effects.DestinationActs` | lib/private/private-peer-controller.js:1472-1729 | what each act of the application or a timer does to a destination stream |
| `Progress.FramesArrive` | lib/private/private-peer-controller.js:1830-1881 | in every run the oldest frame of a stream is taken at the destination as soon as it may be |
| `Progress.FramesReturn` | lib/private/private-peer-controller.js:2213-2301 | the oldest frame of a stream is taken at the entry and passed on to a live leg |
| `Progress.CreditArrives` | lib/private/private-peer-controller.js:1318-1324 | credit at circuit level arrives and is free again |
| `Progress.FlushesReturn` | lib/private/private-peer-controller.js:2303-2318 | the delayed returns leave nothing pending |
| `Progress.LegsJoin` | lib/private/private-peer-controller.js:2082-2093 | a leg joins exactly while fewer than 64 are live and ids last |
| `Progress.StreamGrantsHappen` | lib/private/private-peer-controller.js:1553-1566 | in every run the destination pool can grant what is wanted and free to a stream that can use it |
| `Progress.ApplicationsAct` | lib/private/private-peer-controller.js:1472-1729 | in every run what the destination application does has its effect |
| `Endpoint.DrainMovesOneCell` | lib/private/private-peer-controller.js:1769-1785 | draining moves at most one cell to a waiting reader, keeps the received bytes and their order, and ends the stream only with an empty queue |
| `Endpoint.DrainServes` | lib/private/private-peer-controller.js:1769-1785 | a waiting reader gets the oldest cell, and end-of-stream is given exactly when it is due |
| `Endpoint.ReadServes` | lib/private/private-peer-controller.js:1632-1654 | a read hands out the oldest cell, or waits for the next cell or the end |
| `Endpoint.AcceptServes` | lib/private/private-peer-controller.js:1731-1761 | a cell goes straight to a waiting reader, otherwise to the end of the queue |
| `Endpoint.AcceptKeepsWindow` | lib/private/private-peer-controller.js:1731-1761 | with credit left a cell always fits the queue, the window stays accounted for, and the bytes are appended |
| `Endpoint.ReadKeepsWindow` | lib/private/private-peer-controller.js:1632-1654 | a read returns exactly the credit it takes off the books and loses no byte |
| `HonestRuns.HonestRunsAreClean` | lib/private/private-peer-controller.js:1536-1601 | in every run, with any frames from dishonest legs, nothing on an honest leg is rejected; grant = credit + CREDIT, DATA and RELEASE in transit; both stream and both circuit windows, demands, grants and cancellations are matched likewise |
| `HonestRuns.SeatMatched` | lib/private/private-peer-controller.js:2134-2211 | what agreement means for a live leg, equation by equation |
| `HonestRuns.ArriveSparesOthers` | lib/private/private-peer-controller.js:2134-2211 | a frame of a dishonest leg, accepted or refused, leaves every honest leg's agreement as it was |
| `HonestRuns.JourneyAgrees` | lib/private/private-peer-controller.js:2134-2211 | entry and source agree on every honest leg after every sequence of moves |
| `HonestRuns.UpAgrees` | lib/private/private-peer-controller.js:2134-2211 | the entry accepts the next frame of an honest leg and agreement persists |
| `HonestRuns.CloseAgrees` | lib/private/private-peer-controller.js:2112-2126 | a leg closed by the entry leaves frames in transit that its source still accepts |
| `SourceLeg.HonestAccepted` | lib/private/private-peer-controller.js:2134-2211 | every frame an agreeing source has in transit is one the entry accepts |
| `SourceLeg.DemandAccepted` | lib/private/private-peer-controller.js:1278-1300 | an honest demand meets every condition of the pool |
| `SourceLeg.CancelAccepted` | lib/private/private-peer-controller.js:2134-2211 | an honest cancel is acknowledged once and the dialogue stays matched |
| `SourceLeg.ReleaseAccepted` | lib/private/private-peer-controller.js:1326-1334 | an honest release never exceeds the grant |
| `SourceLeg.ReturnAccepted` | lib/private/private-peer-controller.js:2303-2318 | an honest return never exceeds the reverse cells in flight |
| `SourceLeg.HearAgrees` | lib/private/private-peer-controller.js:3433-3460 | an agreeing source never rejects the next frame on its way down |
| `SourceLeg.GrantHeard` | lib/private/private-peer-controller.js:1553-1566 | a grant fits the demand it answers, whatever was cancelled meanwhile |
| `SourceLeg.AckHeard` | lib/private/private-peer-controller.js:1568-1578 | an acknowledgement arrives only while a cancel is open, after every earlier grant |
| `SourceLeg.StreamCreditHeard` | lib/private/private-peer-controller.js:1624-1630 | stream credit never overfills the window |
| `SourceLeg.DataDropped` | lib/private/private-peer-controller.js:1731-1742 | a cell that reaches a dying or ended stream is returned to the circuit, not lost |
| `SourceLeg.RelinquishAgrees` | lib/private/private-peer-controller.js:1580-1601 | cancelling and giving back keeps the agreement |
| `SourceLeg.ReturnAgrees` | lib/private/private-peer-controller.js:1656-1675 | batched circuit returns keep the agreement and never exceed the window |
| `SourceLeg.ActAgrees` | lib/private/private-peer-controller.js:1472-1729 | every act of the source application or its timers keeps the agreement |
| `SourceLeg.TeardownAgrees` | lib/private/private-peer-controller.js:1704-1729 | destroying a stream returns every cell it still held |
| `Effects.SourceActs` | lib/private/private-peer-controller.js:1472-1729 | what each act of the application or a timer does to a source |
| `Effects.ReturnsInBatches` | lib/private/private-peer-controller.js:1656-1675 | circuit credit goes back in batches of 32, or whole when flushed |
| `Progress.UpArrives` | lib/private/private-peer-controller.js:2134-2211 | in every run the oldest frame of an honest source is taken at the entry |
| `Progress.DownArrives` | lib/private/private-peer-controller.js:3433-3460 | in every run the oldest frame that goes down an honest leg is taken by its source |
| `Progress.LegsAreTold` | lib/private/private-peer-controller.js:2213-2301 | in every run what the entry takes from the destination goes down a live honest leg |
| `Progress.LegsAreGranted` | lib/private/private-peer-controller.js:2057-2067 | in every run a grant to a live honest leg is sent down it as CREDIT |
| `Progress.SourcesAct` | lib/private/private-peer-controller.js:1472-1729 | in every run what the application of an honest source does has its effect |
| `Progress.SourcesFlush` | lib/private/private-peer-controller.js:1656-1675 | in every run the delayed return of a source leaves nothing pending |
| `Effects.SourceResetDestroys` | lib/private/private-peer-controller.js:1787-1791 | a RESET that comes down the leg destroys a live source |
| `Delivery.ReadersSeePrefixes` | lib/private/private-peer-controller.js:1632-1654 | in every run, both readers of an honest leg hold a prefix of what the other end wrote, and all of it once they were given end-of-stream; that they are given it is `Endings.EveryEndReaches` |
| `Endings.EveryEndReaches` | lib/private/private-peer-controller.js:1763-1791 | in every run, both directions of a live honest leg: when the writer has ended and no FIN is under way, the live reader knows, and with nothing left to read it was given end-of-stream and all that was written; when one stream is gone and no RESET is under way, the other is no longer live unless both directions had ended |
| `Endings.JourneyEnds` | lib/private/private-peer-controller.js:1763-1791 | in every run, of every honest leg: a RESET or an end that one side announced is under way, noted, or too late |
| `Delivery.StrangersCarry` | lib/private/private-peer-controller.js:2134-2211 | a dishonest source moves no byte of another leg |
| `Delivery.JourneyCarries` | lib/private/private-peer-controller.js:1472-1518 | written bytes = pushed + queued + in transit, in order, for both directions of every honest stream after every run |
| `Delivery.FromEntryCarries` | lib/private/private-peer-controller.js:1830-1881 | delivery at the destination moves bytes along without reordering |
| `Delivery.DownCarries` | lib/private/private-peer-controller.js:2213-2301 | forwarding at the entry moves bytes along without reordering |
| `RouteStream.Stream.SendData` | lib/private/private-peer-controller.js:1472-1518 | for every data, credit and sequence of events at the awaits: the stream ends up exactly where polls, permitted sends and the source's reactions to those events lead it; each turn sends as many cells as credit and batch allow; the cells are consecutive fragments of the data and their bytes, no others, join those on the leg; a write that completes has sent all, one that fails has not and the stream is destroyed; with credit for it and left alone it completes; a write left waiting has asked for all the credit it may |
| `RouteStream.Stream.Undergo` | lib/private/private-peer-controller.js:1472-1518 | what reaches a waiting write is exactly the source's reactions, one after another; what it must refuse destroys it |
| `RouteStream.WriteCarries` | lib/private/private-peer-controller.js:1472-1518 | polls, grants, cancellations and releases between the cells of a write put no byte on the leg and move none |
| `WriteRuns.WriteInEveryRun` | lib/private/private-peer-controller.js:1472-1518 | in every run with honest and dishonest legs and any moves at the awaits: an object that stands where its source stands before a write does so after it; the source's history grows by exactly the cells and nothing on the leg is rejected |
| `WriteRuns.WaitingWriterAsks` | lib/private/private-peer-controller.js:1472-1551 | in every run, after a turn of a write and whatever the run does since: a live writer with stream credit and no circuit credit has a demand or a cancellation under way, is owed credit by the pool, or is being granted some |
| `WriteRuns.AwaitIsEvents` | lib/private/private-peer-controller.js:1514-1601 | whatever the run does at an await reaches the writer as the events of its own leg and nothing else |
| `WriteRuns.HearIsEvent` | lib/private/private-peer-controller.js:3433-3460 | an honest source takes the next frame on its way down, and hearing it is the reaction to the event it is |
| `WriteRuns.TurnIsMoves` | lib/private/private-peer-controller.js:1479-1512 | one turn of the write loop is a poll and sends of the source, and touches nothing else in the run |
| `RouteStream.Stream.SendBurst` | lib/private/private-peer-controller.js:1472-1512 | between two awaits the write loop sends consecutive fragments of the data, each permitted by the protocol, as many as credit and batch allow |
| `RouteStream.Stream.Fragment` | lib/private/private-peer-controller.js:1486-1511 | the fragments concatenate to the bytes consumed; the data is finished when all its cells were sent |
| `RouteStream.Stream.RequestCircuit` | lib/private/private-peer-controller.js:1536-1551 | refines the source's demand; afterwards a live stream that may write has more than half the window, a demand or a cancellation open, and a demand is for the rest of the window |
| `RouteStream.Stream.GrantCircuit` | lib/private/private-peer-controller.js:1553-1566 | refines the source's reaction to a grant, error cases and late grants included; it is kept, or given back at once when it cannot be used |
| `RouteStream.Stream.CancelCircuit` | lib/private/private-peer-controller.js:1568-1578 | refines the reaction to an acknowledgement, error case included |
| `RouteStream.Stream.ReleaseCircuit` | lib/private/private-peer-controller.js:1580-1601 | refines cancelling and giving back; afterwards nothing is held, and nothing wanted but what is being cancelled |
| `RouteStream.Stream.GrantStream` | lib/private/private-peer-controller.js:1624-1630 | refines the reaction to stream credit, error cases and late credit included |
| `ReceiveRing.HoldsPut` | lib/private/private-peer-controller.js:1758-1759 | the slot written by a receive was empty, and the ring then holds the longer queue |
| `ReceiveRing.HoldsTake` | lib/private/private-peer-controller.js:1772-1775 | emptying the head leaves the ring holding the rest, around the wrap |
| `ReceiveRing.Stream.Put` | lib/private/private-peer-controller.js:1757-1759 | a live slot is never overwritten; the queue grows by the cell at its end |
| `ReceiveRing.Stream.Take` | lib/private/private-peer-controller.js:1772-1776 | the oldest cell leaves the queue and the byte count |
| `ReceiveRing.Stream.Receive` | lib/private/private-peer-controller.js:1731-1761 | a cell is kept exactly when the stream is live, not ended and has credit; it goes to a waiting reader or to the end of the queue, which the ring refines |
| `ReceiveRing.Stream.Drain` | lib/private/private-peer-controller.js:1769-1785 | refines draining of the queue: a waiting reader gets the oldest cell, and end-of-stream is given exactly when it is due |
| `ReceiveRing.Stream.Read` | lib/private/private-peer-controller.js:1632-1654 | refines reading, with the credit that goes back; the oldest cell is handed out, or the reader waits or is at the end |
| `ReceiveRing.Stream.RemoteFin` | lib/private/private-peer-controller.js:1763-1767 | refines the end marker, which is told at once to a reader with nothing left |
| `CreditPool.Pool.Distribute` | lib/private/private-peer-controller.js:1355-1384 | ends when callbacks eventually demand no more, in the one state that serving leg after leg and obeying each callback leads to; unless a callback threw, no credit is left or no demand is queued; the pool closes only if a callback destroys it; undisturbed it only grants and is max-min fair |
| `CreditPool.RunKeeps` | lib/private/private-peer-controller.js:1355-1384 | at every callback of every distribution, endless ones too, the pool is lawful: credit conserved, queue exact |
| `CreditPool.EndsWhenQuiet` | lib/private/private-peer-controller.js:1355-1384 | once callbacks demand no more, a distribution ends after at most as many of them as cells are wanted |
| `CreditPool.CallbacksBounded` | lib/private/private-peer-controller.js:1355-1384 | callbacks that demand nothing are at most as many as cells are wanted |
| `CreditPool.NeverSettles` | lib/private/private-peer-controller.js:1355-1384 | callbacks that return what was granted and demand it again keep a distribution going for ever |
| `CreditPool.SettlesOnce` | lib/private/private-peer-controller.js:1355-1384 | a distribution has one outcome |
| `CreditPool.SettlesFairly` | lib/private/private-peer-controller.js:1355-1384 | undisturbed: only grants, leaves credit or demand at zero, and no leg gets more than one cell beyond an unsatisfied one |
| `CreditPool.RunCloses` | lib/private/private-peer-controller.js:1355-1384 | a pool that is closed after a distribution was destroyed by a callback |
| `CreditPool.AppliedKeeps` | lib/private/private-peer-controller.js:1263-1353 | every operation keeps the laws of the pool, and only a demand adds to the demand unmet |
| `CreditPool.Pool.OnGrant` | lib/private/private-peer-controller.js:1378-1378 | a callback does exactly its operations, each on the pool as it stands, up to the first error it does not catch; the pool is valid before and after each |
| `CreditPool.Pool.Demand` | lib/private/private-peer-controller.js:1278-1300 | accepted exactly when the leg wants nothing, the window of 2048 holds it and progress allows it; then it waits behind all others and the outcome is that of the distribution; zero withdraws an open demand |
| `CreditPool.Pool.Returned` | lib/private/private-peer-controller.js:1318-1324 | accepted exactly for 1 up to the cells in flight; that many are free again, and left alone they go to grants or stay available; otherwise the outcome is that of the distribution |
| `CreditPool.Pool.Release` | lib/private/private-peer-controller.js:1326-1334 | accepted exactly up to the leg's grant; then it is free and the outcome is that of the distribution |
| `CreditPool.Pool.Cancel` | lib/private/private-peer-controller.js:1336-1342 | the leg wants nothing more and leaves the queue, the others keep their order |
| `CreditPool.WithoutIs` | lib/private/private-peer-controller.js:1341-1341 | taking one leg out of the queue leaves those before and behind it where they are |
| `CreditPool.Pool.Remove` | lib/private/private-peer-controller.js:1344-1353 | the leg is gone, its unspent grant is free and the outcome is that of the distribution; an unknown leg changes nothing |
| `CreditPool.Pool.Add` | lib/private/private-peer-controller.js:1263-1276 | a new leg holds and wants nothing |
| `CreditPool.Pool.Sent` | lib/private/private-peer-controller.js:1302-1311 | accepted exactly up to the grant; spent cells move from grant to in flight and count as progress up to 64 |
| `CreditPool.Pool.Destroy` | lib/private/private-peer-controller.js:1414-1421 | a closed pool holds nothing |
| `CreditPool.RoundServes` | lib/private/private-peer-controller.js:1366-1379 | serving the head keeps the water level of the round |
| `CreditPool.RoundEnds` | lib/private/private-peer-controller.js:1355-1384 | where the rounds stop, the distribution is complete and fair |
| `CreditPool.HeadServed` | lib/private/private-peer-controller.js:1367-1373 | the queue again holds each leg with unmet demand exactly once |
| `SendQueues.FreshInCreationOrder` | lib/private/private-peer-controller.js:802-870 | for every interleaving of sends and selections: per stream, selected then waiting jobs are the accepted ones in order; first cells are selected in creation order, so ids that ascend by creation, the circuit's own id aside, appear ascending |
| `SendQueues.BoundedWait` | lib/private/private-peer-controller.js:851-870 | while a queue at position i is not served, at most 4·i cells are selected |
| `SendQueues.FullTurn` | lib/private/private-peer-controller.js:851-870 | a queue that comes to the front sends the next four cells as long as it has any, whatever is sent meanwhile |
| `SendQueues.HeadKeepsTurn` | lib/private/private-peer-controller.js:851-870 | a queue stays in front until its turn is used up, then goes behind all others; no other queue changes |
| `SendQueues.ScheduleSplits` | lib/private/private-peer-controller.js:851-870 | the next a + b cells are the next a and then the next b |
| `LinkedRuns.SchedulerSuffices` | lib/private/private-peer-controller.js:802-870 | with every cell of the shared link passing through the scheduler, in every run: what arrives next can be taken by the destination, opens come with ascending ids, nothing is refused, and the circuit's laws and bounds hold |
| `LinkedRuns.JointRunLinked` | lib/private/private-peer-controller.js:1830-1902 | a circuit behind the scheduler only makes runs of the circuit model |
| `LinkedRuns.OlderArrived` | lib/private/private-peer-controller.js:851-870 | when the first cell of a stream arrives, every older stream has had a cell arrive |
| `LinkedRuns.ArrivalDeliverable` | lib/private/private-peer-controller.js:1900-1902 | so the next frame to arrive is deliverable |
| `LinkedRuns.WorkKeeps` | lib/private/private-peer-controller.js:2134-2318 | what entry and destination send in a step is what the scheduler is given |
| `LinkedRuns.LineHasRoom` | lib/private/private-peer-controller.js:802-880 | DATA waiting in the line of a circuit fits the window of 2048 that is the room for DATA, and whenever one more cell is sent there was room |
| `LinkedJourneys.HonestBehindScheduler` | lib/private/private-peer-controller.js:893-945 | with the link behind the scheduler, in every run with honest and dishonest legs: what arrives next can be taken, nothing is refused, books match, readers see prefixes, and ends reach the other side |
| `LinkedJourneys.LinkedRunIsJourney` | lib/private/private-peer-controller.js:893-945 | a run behind the scheduler makes only runs of the honest model |
| `SendQueues.ServedInOrder` | lib/private/private-peer-controller.js:851-870 | selection moves the oldest job of a stream and nothing else |
| `SendQueues.EnqueuedInOrder` | lib/private/private-peer-controller.js:835-846 | a send appends to its own stream only |
| `SendQueues.ServedFormed` | lib/private/private-peer-controller.js:851-870 | list and map keep holding the same non-empty queues, each once, and only the head is mid-turn |
| `SendQueues.ServedBacklog` | lib/private/private-peer-controller.js:858-858 | the count of queued jobs falls by exactly one |
| `SendQueues.ServedCreation` | lib/private/private-peer-controller.js:851-870 | selection keeps fresh queues sorted by creation |
| `CircuitLink.Link.Send` | lib/private/private-peer-controller.js:802-849 | a job is accepted exactly when it fits a live link within 2048 data or 256 control jobs; otherwise the link dies; a flush is scheduled |
| `CircuitLink.Link.NextSend` | lib/private/private-peer-controller.js:851-870 | selection takes one job into the flush's hands |
| `CircuitLink.Link.Settle` | lib/private/private-peer-controller.js:872-880 | the first verdict stands; counters keep counting exactly the unsettled jobs |
| `CircuitLink.Link.ScheduleSends` | lib/private/private-peer-controller.js:882-891 | a flush is scheduled exactly when a live link has something queued |
| `CircuitLink.Link.Obey` | lib/private/private-peer-controller.js:916-924 | an observer's sends and destroys: the link survives exactly when it has room for every send and no destroy occurs |
| `CircuitLink.Link.SealNext` | lib/private/private-peer-controller.js:907-930 | the scheduler's next job is selected and registered before it is sealed; the link survives exactly when nothing throws and it bears the observer's actions; no job escapes the books |
| `CircuitLink.Link.FillBatch` | lib/private/private-peer-controller.js:899-931 | a batch holds exactly the newly selected jobs, min(64, queued) of them unless the link dies |
| `CircuitLink.Link.FlushSends` | lib/private/private-peer-controller.js:893-945 | keeps all laws under any re-entry; on a live link the new batches hold exactly the newly selected jobs and it stops only with nothing queued or both batches in flight; undisturbed, the link lives and exactly the scheduler's next jobs are selected, as many as the free batches hold |
| `CircuitLink.Link.FinishBatch` | lib/private/private-peer-controller.js:947-958 | a batch's jobs, and no others, are told they were sent exactly when the write succeeded on a live link |
| `CircuitLink.Link.Destroy` | lib/private/private-peer-controller.js:1038-1076 | everything queued or in flight is settled as lost; earlier verdicts stand |
| `CircuitLink.Link.DeadLinkOwesNothing` | lib/private/private-peer-controller.js:1038-1076 | on a dead link at rest every accepted job was answered exactly once and nothing is pending |
| `CircuitLink.Link.LiveLinkHoldsTheRest` | lib/private/private-peer-controller.js:802-880 | on a live link no job was answered twice and each unanswered one is queued or in flight |
| `Reassembly.Inbound.Receive` | lib/private/private-peer-controller.js:960-994 | for every chunking the cells opened are the consecutive 1200-byte blocks of the bytes taken in, and exactly the rest is held; the link dies exactly by an empty chunk, a foreign sender, or the last cell opened |
| `Reassembly.Inbound.CompletePartial` | lib/private/private-peer-controller.js:969-979 | a partial cell is completed across chunks, and kills the link exactly if opening it does |
| `Reassembly.Inbound.OpenWhole` | lib/private/private-peer-controller.js:982-985 | whole cells are opened in place, in order, until one kills the link |
| `Reassembly.CellsLoseNothing` | lib/private/private-peer-controller.js:960-994 | blocks and rest together are the byte stream |
| `Reassembly.CellsExtended` | lib/private/private-peer-controller.js:968-990 | how blocks and rest grow with the next bytes |
| `PeerLedger.Registry.Create` | lib/private/peer-ledger.js:297-321 | succeeds exactly for an encodable row |
| `PeerLedger.Registry.Reserve` | lib/private/peer-ledger.js:323-364 | succeeds exactly when the live parent has the row left in every dimension; then it is reserved for a new child and nothing else changes; all laws hold |
| `PeerLedger.Registry.Charge` | lib/private/peer-ledger.js:366-400 | succeeds exactly when the ledger has the row left; then it is spent at every ancestor; all laws hold |
| `PeerLedger.ChargeIs` | lib/private/peer-ledger.js:387-399 | a charge is spent at the ledger and all above it, out of their reserves, and nowhere else |
| `PeerLedger.ReleaseIs` | lib/private/peer-ledger.js:402-427 | exactly the subtree is released, what it spent stays, and the rest of the row returns to the parent |
| `PeerLedger.Registry.Release` | lib/private/peer-ledger.js:402-427 | the whole subtree is released once, the unspent row returns to the parent; all laws hold |
| `PeerLedger.Registry.ReleaseLive` | lib/private/peer-ledger.js:402-427 | the recursion keeps the laws at every level |
| `PeerLedger.Registry.IsWithin` | lib/private/peer-ledger.js:462-470 | answers proper descent between live ledgers |
| `PeerLedger.ReleasedHoldsNothing` | lib/private/peer-ledger.js:402-427 | a released ledger reserves nothing and lists no child |
| `PeerLedger.AncestorsLive` | lib/private/peer-ledger.js:323-427 | a live ledger has only live ancestors |
| `PeerLedger.SpendingBounded` | lib/private/peer-ledger.js:366-400 | spent equals all charges ever made in the subtree, reserved equals what live children hold, and both fit the allotment |
| `LedgerTree.ReserveKeeps` | lib/private/peer-ledger.js:323-364 | reserving keeps structure, conservation and funding |
| `LedgerTree.ChargeClimbs` | lib/private/peer-ledger.js:387-399 | one step of a charge up the tree moves the imbalance to the next ancestor |
| `LedgerTree.SettleKeeps` | lib/private/peer-ledger.js:414-424 | settling a released ledger with its parent restores the laws |
| `Narrowing.NarrowReservations` | lib/private/peer-ledger.js:622-721 | all or nothing over ledgers and memory; succeeds exactly under the stated test; all invariants survive |
| `Narrowing.LocalTestSuffices` | lib/private/peer-ledger.js:655-691 | the batch's local test is equivalent to the narrowed tree being funded everywhere |
| `Narrowing.MayNarrowIs` | lib/private/peer-ledger.js:640-691 | what may be narrowed, in numbers: live ledgers named once, rows no larger than before, and every ledger still in budget afterwards |
| `Narrowing.NarrowedIsSound` | lib/private/peer-ledger.js:622-721 | a batch that may be narrowed leaves a sound tree, parents and descendants together included |
| `Narrowing.NarrowedIs` | lib/private/peer-ledger.js:706-716 | what each ledger holds afterwards, independent of the order of the batch |
| `Narrowing.CheckLedgers` | lib/private/peer-ledger.js:653-691 | the test loop decides exactly the condition and changes nothing |
| `Narrowing.PublishLedgers` | lib/private/peer-ledger.js:706-716 | publishing produces exactly the narrowed tree |
| `PeerMemory.Memory.CreatePool` | lib/private/peer-ledger.js:472-487 | a new pool holds nothing |
| `PeerMemory.Memory.Reserve` | lib/private/peer-ledger.js:489-517 | succeeds exactly when the live pool has room; sums stay exact |
| `PeerMemory.Memory.Take` | lib/private/peer-ledger.js:519-540 | succeeds exactly once per live reservation; sums stay exact |
| `PeerMemory.Memory.ReleaseReservation` | lib/private/peer-ledger.js:542-593 | frees the reservation and everything below it exactly once |
| `PeerMemory.Memory.ReleasePool` | lib/private/peer-ledger.js:566-593 | frees the pool, everything below it and the reservation it came from |
| `PeerMemory.EitherEnd` | lib/private/peer-ledger.js:542-593 | releasing a taken reservation from its pool's end or its own end leaves the same store |
| `PeerMemory.PoolLaws` | lib/private/peer-ledger.js:472-593 | taken within reserved within capacity; a released pool holds nothing |
| `PeerMemory.NarrowedIs` | lib/private/peer-ledger.js:622-721 | narrowing changes the planned sizes only |
| `BranchSlots.Slots.Take` | lib/private/peer-ledger.js:771-795 | refused takes change nothing; a take occupies one slot with four fresh root ledgers and leaves every other ledger as it was; the branch is live and its join not deferred |
| `BranchSlots.Slots.DeferJoin` | lib/private/peer-ledger.js:800-806 | marks a live branch once |
| `BranchSlots.Slots.Release` | lib/private/peer-ledger.js:810-822 | retires a branch once: its slot is free, the subtrees of its four roots are released with what they spent, and every ledger outside them is as it was |
| `BranchSlots.Slots.Close` | lib/private/peer-ledger.js:827-838 | exactly the join-deferred branches keep their slots and every ledger of their authority; exactly the subtrees of the others are released |
| `BranchSlots.RetiringSpares` | lib/private/peer-ledger.js:810-838 | retiring branches leaves every ledger below the roots of any other branch as it was |
| `BranchSlots.Slots.Read` | lib/private/peer-ledger.js:842-868 | reports what live branches hold and what every branch ever taken has spent |
| `BranchSlots.Slots.EveryTakeCounted` | lib/private/peer-ledger.js:756-822 | live and retired branches are all takes |
| `BranchSlots.NothingReportedIsLost` | lib/private/peer-ledger.js:297-427 | over any run of creating, reserving, charging, releasing and narrowing, on the branches' own roots too, retired evidence stays exact and reported spending never shrinks |
| `BranchSlots.OperationSpendsOn` | lib/private/peer-ledger.js:297-427 | no registry operation lowers any ledger's spending or touches a released ledger's |
| `BranchSlots.ReportedIsAll` | lib/private/peer-ledger.js:842-868 | retired totals plus live spending is the spending of all branches |
| `OrderedReceiver.Receiver.Push` | lib/private/counters.js:235-296 | a counter is accepted exactly when an open gap holds and it is the next one or may be buffered; what was handed out is always the payloads of initial, initial+1, … in order, each once; refusals hand out nothing and a replay closes nothing; a gap is dated by the reading of the push that opened it, which later pushes leave as it is, and is forgotten when nothing is buffered |
| `OrderedReceiver.Receiver.OpenAndFill` | lib/private/counters.js:235-296 | a gap filled less than the timeout after the push that opened it, on a forward clock, is delivered whole |
| `OrderedReceiver.Receiver.Deliver` | lib/private/counters.js:258-290 | hands out the next run; at the maximum counter nothing buffered is discarded |
| `OrderedReceiver.Receiver.Buffer` | lib/private/counters.js:241-256 | keeps a cell exactly when window, gap timeout, clock and size allow; the first one dates the gap, later ones do not |
| `OrderedReceiver.Receiver.Expire` | lib/private/counters.js:339-345 | a gap stays open exactly while the clock moves forward within the timeout since it was opened; the reading is remembered |
| `OrderedReceiver.Receiver.Destroy` | lib/private/counters.js:309-316 | a destroyed receiver holds nothing and hands out nothing more |
| `OrderedReceiver.RunAt` | lib/private/counters.js:258-290 | position k of the output is the payload of counter initial + k |
| `OrderedReceiver.Complete` | lib/private/counters.js:235-296 | for every arrival order, once all counters up to n were accepted all were handed out |
| `ReplayWindow.DatagramReplayWindow.Accept` | lib/private/counters.js:490-516 | while open, accepts a counter exactly when it is at or above the floor and was never accepted |
| `ReplayWindow.DatagramReplayWindow.Buffered` | lib/private/counters.js:480-488 | counts the accepted counters in the window exactly |
| `ReplayWindow.ShiftMirrors` | lib/private/counters.js:501-507 | after any shift and mask, bit i is set iff highest − i was accepted |
| `ReplayWindow.SetMirrors` | lib/private/counters.js:509-515 | setting one bit records exactly that counter |
| `ReplayWindow.RecentCount` | lib/private/counters.js:480-488 | set bits are the accepted counters of the window |
| `Bits.DropLowest` | lib/private/counters.js:484-484 | b & (b − 1) removes exactly one set bit |
| `CellCodec.Context.SealInto` | lib/private/cell-codec.js:425-493 | writes the packet the allocating form returns for the same inputs and nothing else; fails exactly when that fails or the context or output is unfit, and then dies |
| `CellCodec.Context.OpenInto` | lib/private/cell-codec.js:499-547 | a live opener accepts exactly the packets the allocating form authenticates, with the same counter and payload; the first rejection ends it |
| `CellCodec.OpenAfterSeal` | lib/private/cell-codec.js:629-838 | opening a sealed cell returns counter and payload, for every payload of up to 1146 bytes |
| `CellCodec.NoncesDiffer` | lib/private/cell-codec.js:469-470 | cells of one direction with different counters never share a nonce |
| `CellCodec.HeadersBind` | lib/private/cell-codec.js:471-474 | the authenticated header determines class, direction, epoch, circuit and counter |
| `CellCodec.OpensOnlyOurs` | lib/private/cell-codec.js:518-535 | a packet opens exactly when its fixed header is ours, the cipher authenticates it under the counter it carries, and its length field fits |
| `LinkEnds.HandOut` | lib/private/private-peer-controller.js:996-1036 | opening the cells as cut from the wire hands out exactly the first jobs selected, one for each cell, and nothing is held back |
| `LinkEnds.CellsAreJobs` | lib/private/private-peer-controller.js:893-1036 | for every split into batches and chunks, the cells cut from the bytes received open to the payloads and counters of the first jobs |
| `CellCodec.SameHeaderStart` | lib/private/cell-codec.js:518-520 | comparing 28 bytes is the same as comparing every header field |
| `CellCodec.Context.WriteBody` | lib/private/cell-codec.js:446-458 | length, payload and padding fill the body exactly |
| `CellCodec.Context.WriteData` | lib/private/cell-codec.js:471-474 | domain and header with the counter, in place |
| `CellCodec.Context.SameHeader` | lib/private/cell-codec.js:518-520 | the comparison loop decides equality of the fixed header bytes |
| `CellCodec.Context.Decrypt` | lib/private/cell-codec.js:521-530 | nonce, associated data and ciphertext are exactly the packet's |
| `BigEndian.WriteUint64` | lib/private/cell-codec.js:210-215 | writes the eight bytes in place and nothing else |
| `BigEndian.ReadUint64` | lib/private/cell-codec.js:217-221 | reads the number back |
| `BigEndian.NumberOfBytesOf` | lib/private/cell-codec.js:210-221 | reading undoes writing |
| `BigEndian.BytesOfNumberOf` | lib/private/cell-codec.js:210-221 | writing undoes reading |
| `BigEndian.ByteAt` | lib/private/cell-codec.js:210-221 | the most significant byte comes first |
| `Router.FewMessages` | lib/router.js:81-248 | for any nodes and tables, changing at every hop, a handshake takes at most five messages and a holepunch at most four |
| `Router.Advances` | lib/router.js:81-248 | every answer strictly advances, and keeps request and target |
| `Router.AcceptedRepliesAreGenuine` | lib/router.js:46-172 | in every honest run an accepted reply comes from the node asked and carries what a host of the target wrote, at the address the client takes for the server's |
| `Router.RunHonest` | lib/router.js:81-248 | where every packet can be and what it carries there, after any run |
| `Router.HandlePlaces` | lib/router.js:81-248 | each handler keeps that |
| `Router.HandshakeCompletes` | lib/router.js:81-172 | a host behind at most two relays is reached and its answer accepted |
| `Router.HolepunchCompletes` | lib/router.js:174-248 | a host that the client names or the relay knows is reached in four messages and its answer accepted |
| `Router.HandshakeByName` | lib/router.js:81-172 | a relay that the client names is used even by a node that does not know the target |
| `Router.HandshakeInVain` | lib/router.js:81-172 | a node that knows neither server nor relay answers without a value |
| `RawStreamSet.Streams.Add` | lib/raw-stream-set.js:17-50 | a new id, one more live stream under its masked id, at most half of the table in use; the table grows only when half of it is |
| `RawStreamSet.Streams.Roll` | lib/raw-stream-set.js:25-30 | the first free roll is taken |
| `RawStreamSet.Streams.Rehash` | lib/raw-stream-set.js:33-43 | growth keeps exactly the same streams, merges none, and free ids stay free |
| `RawStreamSet.Streams.Close` | lib/raw-stream-set.js:52-54 | a close removes exactly its own stream, under the prefix of the moment |
| `RawStreamSet.FreeIdExists` | lib/raw-stream-set.js:25-33 | some id is free if and only if fewer than 2^32 streams are live |
| `RawStreamSet.KeyedOneToOne` | lib/raw-stream-set.js:17-48 | no two live streams share an id or a key |
| `RawStreamSet.MaskTwice` | lib/raw-stream-set.js:35-42 | a key under the longer prefix determines the key under the shorter |

## Left out

- The spliced data plane: LOGICAL_SPLICE frames are not among the frames, and only the `standard` profile is covered; "any frame" means any frame of that profile.
- Entry and destination circuits are transition functions on one stream's slot and the shared state, not objects: the runs interleave any number of them, and aliasing between a record and the maps that hold it is not captured.
- Each grant of a pool is a step of its own in the runs, which allows more interleavings than the synchronous loop; the loop itself is in `CreditPool`.
- Byte and frame totals per stream and link failure appear in the runs as a stream or leg that may fail or close at any moment. A shared link whose 256 control jobs are exhausted destroys its circuit (`CircuitLink.Link.Send`); the end of a whole circuit ends a run.
- The demand rate limit and the idle reclaim are steps or answers of the environment; a demand of an honest source is never too early.
- In `LinkedRuns` and `LinkedJourneys` cells are matched to frames by stream and number; that the bytes of a cell come through the link unchanged is shown apart from the run, in `LinkEnds`.
- LinkedRuns.LineHasRoom: a cell whose arrival outruns the confirmation of its local write still takes room in the link's count of unsettled jobs; the line itself does not hold it.
- CreditPool.Pool.Distribute: a method has to end, so callbacks that demand for ever are excluded there; what such a distribution keeps is in `CreditPool.RunKeeps`.
- RouteStream.Stream.SendData: the totals of bytes and frames that a stream may send in its life, which can end a write inside a burst, are not counted.
- Linked lists of the scheduler are sequences and a map; pointer surgery on `next` fields is not captured. Deficits are counted in cells.
- CircuitLink.Link.FinishBatch: close listeners that throw are not modelled; the ledger charged per cell and the admission funding are among the reasons for which sealing may fail.
- Reassembly.Inbound.Receive: opening a cell is an oracle that says whether the link survives; the order of delivered payloads is in `OrderedReceiver`.
- OrderedReceiver.Receiver.Push: the observer of buffered payloads, which exists for tests, and the copying and wiping of payloads are left out; rotation hints and `SenderCounter` would only add easy members.
- CellCodec.Context.SealInto: overlap and detachment checks between buffers, scratch allocators and wiping of key material are left out; a hook that throws, re-enters or destroys counts as a failed fill.
- RawStreamSet.Streams.Add: the random generator is a given list of rolls that holds a free one; endless bad luck is not modelled.
- Router: cache expiry needs no model, since tables may change at every hop; sockets, tokens and closer nodes are left out, and addresses are taken to be seen as they are.
- Ledger reading functions, budget computation (`computePeerRouteBudget` and the byte formulas) and the length tables of logical frames would only add easy members.
- Option-shape checks, key schedules, connection setup, descriptor storage and wall-clock policy are not part of this model.
