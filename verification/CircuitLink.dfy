/**
 The send side of a circuit link: accepted jobs wait in the scheduler, are sealed into at
 most two batches in flight, and are settled when their batch completes or the link dies.
 Sealing runs foreign code (an observer) that may send again or destroy the link.
 */
module CircuitLink {
  import opened Limits
  import opened Options
  import Frames
  import opened SendQueues

  const CONTROL_RESERVE: nat := 256
  const SEND_PIPELINE_BATCHES: nat := 2

  datatype Verdict = Sent | Lost

  /** A batch buffer and the jobs sealed into it. */
  datatype Batch = Batch(id: nat, jobs: seq<nat>)

  /** What is offered to `send`: its stream, whether it is DATA, whether it fits a cell. */
  datatype Offer = Offer(stream: nat, isData: bool, fits: bool)

  /** What the observer of a sealed cell does to the link. */
  datatype Action = Resend(offer: Offer) | Redestroy

  /** One sealing: the observer's actions, and whether sealing or observing threw. */
  datatype Sealing = Sealing(actions: seq<Action>, throws: bool)

  /** A sealing in which nothing happens but the sealing. */
  predicate Calm(s: Sealing)
  {
    s.actions == [] && !s.throws
  }

  ghost predicate AllCalm(seal: nat -> Sealing, jobs: seq<nat>)
  {
    forall i :: 0 <= i < |jobs| ==> Calm(seal(jobs[i]))
  }

  /** Unsettled data and control jobs. */
  datatype Load = Load(data: nat, control: nat)

  predicate Room(load: Load, o: Offer)
  {
    o.fits && if o.isData then load.data < Frames.CIRCUIT_WINDOW else load.control < CONTROL_RESERVE
  }

  /** The load after these actions on a live link; `None` if one of them kills it. */
  function Borne(load: Load, actions: seq<Action>): Option<Load>
  {
    if actions == [] then Some(load) else
    var before := Borne(load, actions[..|actions| - 1]);
    if before.None? then None else
    match actions[|actions| - 1]
    case Redestroy => None
    case Resend(o) =>
      if !Room(before.value, o) then None
      else if o.isData then Some(before.value.(data := before.value.data + 1))
      else Some(before.value.(control := before.value.control + 1))
  }

  // ---- counting unsettled jobs ----

  /** Unsettled jobs of one kind. */
  ghost function Open(kinds: seq<bool>, settled: set<nat>, isData: bool): set<nat>
  {
    set j | 0 <= j < |kinds| && kinds[j] == isData && j !in settled
  }

  lemma OpenAccepted(kinds: seq<bool>, settled: set<nat>, kind: bool, isData: bool)
    requires forall j :: j in settled ==> j < |kinds|
    ensures |Open(kinds + [kind], settled, isData)| == |Open(kinds, settled, isData)| + if kind == isData then 1 else 0
  {
    var extra := if kind == isData then {|kinds|} else {};
    assert Open(kinds + [kind], settled, isData) == Open(kinds, settled, isData) + extra;
  }

  lemma OpenSettled(kinds: seq<bool>, settled: set<nat>, job: nat, isData: bool)
    requires job < |kinds| && job !in settled
    ensures kinds[job] == isData ==> |Open(kinds, settled, isData)| > 0
    ensures |Open(kinds, settled + {job}, isData)| == |Open(kinds, settled, isData)| - if kinds[job] == isData then 1 else 0
  {
    assert kinds[job] == isData ==> job in Open(kinds, settled, isData);
    assert Open(kinds, settled + {job}, isData) == Open(kinds, settled, isData) - if kinds[job] == isData then {job} else {};
  }

  // ---- where jobs are ----

  ghost predicate InFlight(inflight: seq<Batch>, job: nat)
  {
    exists b :: b in inflight && job in b.jobs
  }

  function Ids(batches: seq<Batch>): seq<nat>
  {
    seq(|batches|, i requires 0 <= i < |batches| => batches[i].id)
  }

  ghost predicate AllKnown(jobs: seq<nat>, n: nat)
  {
    forall i :: 0 <= i < |jobs| ==> jobs[i] < n
  }

  /** Some jobs, and no others, were settled alike; verdicts already given stand. */
  ghost predicate SettledTo(was: map<nat, Verdict>, now: map<nat, Verdict>, jobs: seq<nat>, verdict: Verdict)
  {
    && (forall j :: j in now <==> j in was || j in jobs)
    && (forall j :: j in now ==> now[j] == if j in was then was[j] else verdict)
  }

  /** Verdicts already given stand, and whoever was told since was told the same. */
  ghost predicate Adds(was: map<nat, Verdict>, now: map<nat, Verdict>, verdict: Verdict)
  {
    && (forall j :: j in was ==> j in now && now[j] == was[j])
    && (forall j :: j in now && j !in was ==> now[j] == verdict)
  }

  ghost predicate Told(now: map<nat, Verdict>, jobs: seq<nat>)
  {
    forall j :: j in jobs ==> j in now
  }

  lemma NothingAdded(was: map<nat, Verdict>)
    ensures Adds(was, was, Lost)
  {
  }

  lemma AddsOnward(was: map<nat, Verdict>, mid: map<nat, Verdict>, now: map<nat, Verdict>)
    requires Adds(was, mid, Lost) && Adds(mid, now, Lost)
    ensures Adds(was, now, Lost)
  {
  }

  lemma SettledTells(was: map<nat, Verdict>, now: map<nat, Verdict>, jobs: seq<nat>, verdict: Verdict)
    requires SettledTo(was, now, jobs, verdict)
    ensures Told(now, jobs)
  {
  }

  lemma AddsMore(was: map<nat, Verdict>, mid: map<nat, Verdict>, now: map<nat, Verdict>, jobs: seq<nat>, verdict: Verdict)
    requires Adds(was, mid, verdict) && SettledTo(mid, now, jobs, verdict)
    ensures Adds(was, now, verdict) && Adds(mid, now, verdict) && Told(now, jobs)
  {
  }

  /** Every job in flight or in a queue was told. */
  ghost predicate AllTold(now: map<nat, Verdict>, inflight: seq<Batch>, line: Line)
  {
    && (forall b :: b in inflight ==> Told(now, b.jobs))
    && (forall id :: id in line.queues ==> Told(now, line.queues[id].jobs))
  }

  /** Every unsettled job is still held: in its queue, in a batch in flight, or in the
      hands of the running operation. */
  ghost predicate HeldIn(verdicts: map<nat, Verdict>, accepted: seq<nat>, hands: seq<nat>, line: Line, inflight: seq<Batch>)
  {
    forall j :: 0 <= j < |accepted| && j !in verdicts ==>
      j in hands || j in Waiting(line, accepted[j]) || InFlight(inflight, j)
  }

  /** Only the jobs in these hands are unsettled. */
  ghost predicate AllIn(verdicts: map<nat, Verdict>, accepted: seq<nat>, hands: seq<nat>)
  {
    forall j :: 0 <= j < |accepted| && j !in verdicts ==> j in hands
  }

  lemma HeldTold(was: map<nat, Verdict>, now: map<nat, Verdict>, accepted: seq<nat>, hands: seq<nat>, line: Line, inflight: seq<Batch>)
    requires HeldIn(was, accepted, hands, line, inflight) && Adds(was, now, Lost) && AllTold(now, inflight, line)
    ensures AllIn(now, accepted, hands)
  {
  }

  lemma TellingMore(was: map<nat, Verdict>, mid: map<nat, Verdict>, now: map<nat, Verdict>, inflight: seq<Batch>, line: Line)
    requires Adds(was, mid, Lost) && Adds(mid, now, Lost) && (forall b :: b in inflight ==> Told(mid, b.jobs))
    requires forall id :: id in line.queues ==> id in line.order
    requires forall i :: 0 <= i < |line.order| ==> line.order[i] in line.queues && Told(now, line.queues[line.order[i]].jobs)
    ensures Adds(was, now, Lost) && AllTold(now, inflight, line)
  {
    forall id | id in line.queues
      ensures Told(now, line.queues[id].jobs)
    {
      var i :| 0 <= i < |line.order| && line.order[i] == id;
    }
  }

  lemma HeldAccepted(verdicts: map<nat, Verdict>, accepted: seq<nat>, hands: seq<nat>, line: Line, inflight: seq<Batch>, id: nat)
    requires HeldIn(verdicts, accepted, hands, line, inflight)
    ensures HeldIn(verdicts, accepted + [id], hands, Enqueued(line, id, |accepted|), inflight)
  {
    hide InFlight;
  }

  /** Selecting a job takes it into the hands of the flush... */
  lemma HeldSelected(verdicts: map<nat, Verdict>, accepted: seq<nat>, line: Line, inflight: seq<Batch>)
    requires Formed(line) && line.order != [] && HeldIn(verdicts, accepted, [], line, inflight)
    ensures HeldIn(verdicts, accepted, [Chosen(line)], Served(line), inflight)
  {
    hide InFlight, Formed, Served, Waiting;
    forall j | 0 <= j < |accepted| && j !in verdicts
      ensures j == Chosen(line) || j in Waiting(Served(line), accepted[j]) || InFlight(inflight, j)
    {
      ServedWaiting(line, accepted[j]);
    }
  }

  /** The newest batch takes one more job. */
  function Registered(inflight: seq<Batch>, job: nat): seq<Batch>
    requires inflight != []
  {
    var last := |inflight| - 1;
    inflight[last := inflight[last].(jobs := inflight[last].jobs + [job])]
  }

  lemma RegisteredRides(inflight: seq<Batch>, job: nat, j: nat)
    requires inflight != [] && (InFlight(inflight, j) || j == job)
    ensures InFlight(Registered(inflight, job), j)
  {
    var now, last := Registered(inflight, job), |inflight| - 1;
    if j == job {
      assert now[last] in now && job in now[last].jobs;
    } else {
      var b :| b in inflight && j in b.jobs;
      var i :| 0 <= i < |inflight| && inflight[i] == b;
      assert now[i] in now && j in now[i].jobs;
    }
  }

  /** ... and registering it in the newest batch puts it down again. */
  lemma HeldRegistered(verdicts: map<nat, Verdict>, accepted: seq<nat>, line: Line, inflight: seq<Batch>, job: nat)
    requires inflight != [] && HeldIn(verdicts, accepted, [job], line, inflight)
    ensures HeldIn(verdicts, accepted, [], line, Registered(inflight, job))
  {
    hide Waiting, InFlight, Registered;
    forall j | 0 <= j < |accepted| && j !in verdicts
      ensures j in Waiting(line, accepted[j]) || InFlight(Registered(inflight, job), j)
    {
      if InFlight(inflight, j) || j == job {
        RegisteredRides(inflight, job, j);
      }
    }
  }

  /** A batch in flight holds at most 64 jobs, all accepted. */
  ghost predicate Proper(b: Batch, n: nat)
  {
    AllKnown(b.jobs, n) && |b.jobs| <= SEND_BATCH_CELLS
  }

  ghost predicate AllProper(inflight: seq<Batch>, n: nat)
  {
    forall i :: 0 <= i < |inflight| ==> Proper(inflight[i], n)
  }

  /** The two buffers are in flight or free, each once; a dead link keeps none free. */
  ghost predicate Booked(inflight: seq<Batch>, free: seq<nat>, n: nat, dead: bool)
  {
    && AllProper(inflight, n)
    && |inflight| <= SEND_PIPELINE_BATCHES && Distinct(Ids(inflight) + free)
    && (!dead ==> |inflight| + |free| == SEND_PIPELINE_BATCHES)
    && (dead ==> free == [])
  }

  lemma BookedRegistered(inflight: seq<Batch>, free: seq<nat>, n: nat, job: nat)
    requires Booked(inflight, free, n, false) && inflight != [] && job < n
    requires |inflight[|inflight| - 1].jobs| < SEND_BATCH_CELLS
    ensures Booked(Registered(inflight, job), free, n, false)
  {
    hide Distinct;
    assert Ids(Registered(inflight, job)) == Ids(inflight);
  }

  lemma ProperAppend(inflight: seq<Batch>, b: Batch, n: nat)
    requires AllProper(inflight, n) && Proper(b, n)
    ensures AllProper(inflight + [b], n)
  {
    hide Proper;
  }

  lemma BookedTaken(inflight: seq<Batch>, rest: seq<nat>, x: nat, n: nat)
    requires Booked(inflight, rest + [x], n, false)
    ensures Booked(inflight + [Batch(x, [])], rest, n, false)
  {
    hide Distinct, Ids, AllProper;
    ProperAppend(inflight, Batch(x, []), n);
    DistinctMoved(Ids(inflight), rest, x);
    IdsAppend(inflight, Batch(x, []));
  }

  lemma BookedMore(inflight: seq<Batch>, free: seq<nat>, n: nat, dead: bool)
    requires Booked(inflight, free, n, dead)
    ensures Booked(inflight, free, n + 1, dead)
  {
    hide Distinct;
  }

  lemma BookedDead(inflight: seq<Batch>, free: seq<nat>, n: nat)
    requires Booked(inflight, free, n, false)
    ensures Booked(inflight, [], n, true)
  {
    assert Ids(inflight) + [] == (Ids(inflight) + free)[..|inflight|];
  }

  lemma BookedDropped(inflight: seq<Batch>, free: seq<nat>, n: nat, dead: bool, k: nat)
    requires Booked(inflight, free, n, dead) && k < |inflight|
    ensures Booked(inflight[..k] + inflight[k + 1..], if dead then [] else free + [inflight[k].id], n, dead)
  {
    hide Distinct;
    IdsRemoved(inflight, k);
    DistinctRemoved(Ids(inflight), free, k);
  }

  /** Taking a free buffer into flight holds what was held. */
  lemma HeldTaken(verdicts: map<nat, Verdict>, accepted: seq<nat>, line: Line, inflight: seq<Batch>, b: Batch)
    requires HeldIn(verdicts, accepted, [], line, inflight)
    ensures HeldIn(verdicts, accepted, [], line, inflight + [b])
  {
    hide Waiting;
    assert forall c :: c in inflight ==> c in inflight + [b];
  }

  // ---- what a flush selects ----

  /** The jobs of these batches, in order. */
  ghost function Riding(batches: seq<Batch>): seq<nat>
  {
    if batches == [] then [] else Riding(batches[..|batches| - 1]) + batches[|batches| - 1].jobs
  }

  /** Since a flush took a buffer, exactly the jobs in the new batch were selected. */
  ghost predicate Filling(was: seq<Batch>, s: seq<nat>, now: seq<Batch>, s': seq<nat>)
  {
    && |now| == |was| + 1 && now[..|was|] == was
    && s <= s' && now[|was|].jobs == s'[|s|..]
  }

  lemma FillingBegins(was: seq<Batch>, s: seq<nat>, now: seq<Batch>)
    requires |now| == |was| + 1 && now[..|was|] == was && now[|was|].jobs == []
    ensures Filling(was, s, now, s)
  {
  }

  lemma FillingGrows(was: seq<Batch>, s: seq<nat>, now: seq<Batch>, s': seq<nat>, job: nat)
    requires Filling(was, s, now, s')
    ensures Filling(was, s, Registered(now, job), s' + [job])
    ensures (s' + [job])[|s|..] == s'[|s|..] + [job]
    ensures |now[|now| - 1].jobs| == |s'| - |s|
  {
  }

  /** Batches filled one after the other hold what was selected since. */
  lemma RidingGrows(was: seq<Batch>, s: seq<nat>, mid: seq<Batch>, s1: seq<nat>, now: seq<Batch>, s': seq<nat>)
    requires |was| <= |mid| && mid[..|was|] == was && s <= s1 && Riding(mid[|was|..]) == s1[|s|..]
    requires Filling(mid, s1, now, s')
    ensures now[..|was|] == was && s <= s' && Riding(now[|was|..]) == s'[|s|..]
  {
    var added := now[|was|..];
    assert added[..|added| - 1] == mid[|was|..] && added[|added| - 1] == now[|mid|];
    assert s'[|s|..] == s1[|s|..] + s'[|s1|..];
  }

  lemma ScheduledCounts(l: Line, q: nat, s: seq<nat>, l': Line, q': nat, s': seq<nat>)
    requires Scheduled(l, q, s, l', q', s')
    ensures q' + |s'| == q + |s|
  {
  }

  lemma FillingLonger(was: seq<Batch>, s: seq<nat>, now: seq<Batch>, s': seq<nat>)
    requires Filling(was, s, now, s')
    ensures |now| == |was| + 1
  {
  }

  lemma ScheduledOnward(l: Line, q: nat, s: seq<nat>, l1: Line, q1: nat, s1: seq<nat>, l': Line, q': nat, s': seq<nat>)
    requires Scheduled(l, q, s, l1, q1, s1) && Scheduled(l1, q1, s1, l', q', s')
    ensures Scheduled(l, q, s, l', q', s')
  {
    hide After, Schedule, Formed, Backlog;
    var a, b := q - q1, q1 - q';
    ScheduleSplits(l, a, b);
    assert a + b == q - q';
    assert s' == (s + Schedule(l, a)) + Schedule(l1, b);
    assert s' == s + (Schedule(l, a) + Schedule(l1, b));
  }

  lemma CalmParts(seal: nat -> Sealing, s: seq<nat>, s1: seq<nat>, s': seq<nat>)
    requires s <= s1 <= s'
    ensures AllCalm(seal, s'[|s|..]) <==> AllCalm(seal, s1[|s|..]) && AllCalm(seal, s'[|s1|..])
  {
    var a, b := s1[|s|..], s'[|s1|..];
    assert s'[|s|..] == a + b;
    assert forall i :: 0 <= i < |b| ==> (a + b)[|a| + i] == b[i];
    assert forall i :: 0 <= i < |a| ==> (a + b)[i] == a[i];
  }

  /** From line, backlog and selection at one moment to another, by selections alone. */
  ghost predicate Scheduled(l: Line, q: nat, s: seq<nat>, l': Line, q': nat, s': seq<nat>)
  {
    && Formed(l) && q == Backlog(l.order, l.queues) && q' <= q
    && l' == After(l, q - q') && s' == s + Schedule(l, q - q')
  }

  lemma ScheduledNone(l: Line, q: nat, s: seq<nat>)
    requires Formed(l) && q == Backlog(l.order, l.queues)
    ensures Scheduled(l, q, s, l, q, s)
  {
  }

  lemma ScheduledOne(l: Line, q: nat, s: seq<nat>, l': Line, q': nat, s': seq<nat>)
    requires Scheduled(l, q, s, l', q', s') && q' > 0
    ensures Formed(l') && l'.order != [] && Scheduled(l, q, s, Served(l'), q' - 1, s' + [Chosen(l')])
  {
    hide Served, Chosen;
    BacklogPositive(l');
  }

  /** Taking a batch out of flight takes its jobs into the hands of its completion. */
  lemma HeldRemoved(verdicts: map<nat, Verdict>, accepted: seq<nat>, line: Line, inflight: seq<Batch>, k: nat)
    requires k < |inflight| && HeldIn(verdicts, accepted, [], line, inflight)
    ensures HeldIn(verdicts, accepted, inflight[k].jobs, line, inflight[..k] + inflight[k + 1..])
  {
    hide Waiting;
    forall j | InFlight(inflight, j)
      ensures j in inflight[k].jobs || InFlight(inflight[..k] + inflight[k + 1..], j)
    {
      var b :| b in inflight && j in b.jobs;
      assert b == inflight[k] || b in inflight[..k] + inflight[k + 1..];
    }
  }

  lemma BookedDeadFree(inflight: seq<Batch>, free: seq<nat>, n: nat, dead: bool)
    requires Booked(inflight, free, n, dead)
    ensures dead ==> free == []
  {
  }

  /** Once killed, a link bears no further action. */
  lemma {:induction false} NeverBorne(load: Load, actions: seq<Action>, n: nat)
    requires n <= |actions| && Borne(load, actions[..n]).None?
    ensures Borne(load, actions).None?
    decreases |actions|
  {
    if n == |actions| {
      assert actions[..n] == actions;
    } else {
      assert actions[..|actions| - 1][..n] == actions[..n];
      NeverBorne(load, actions[..|actions| - 1], n);
    }
  }

  lemma CalmSoFar(seal: nat -> Sealing, jobs: seq<nat>, job: nat)
    ensures AllCalm(seal, jobs + [job]) <==> AllCalm(seal, jobs) && Calm(seal(job))
  {
    assert (jobs + [job])[|jobs|] == job;
    assert forall i :: 0 <= i < |jobs| ==> (jobs + [job])[i] == jobs[i];
  }

  lemma EmptyFormed()
    ensures Formed(EMPTY) && Backlog(EMPTY.order, EMPTY.queues) == 0
  {
  }

  lemma IdsAppend(batches: seq<Batch>, b: Batch)
    ensures Ids(batches + [b]) == Ids(batches) + [b.id]
  {
  }

  lemma IdsRemoved(batches: seq<Batch>, k: nat)
    requires k < |batches|
    ensures Ids(batches[..k] + batches[k + 1..]) == Ids(batches)[..k] + Ids(batches)[k + 1..]
  {
  }

  lemma DistinctMoved(a: seq<nat>, b: seq<nat>, x: nat)
    requires Distinct(a + (b + [x]))
    ensures Distinct((a + [x]) + b)
  {
    var s, t := a + (b + [x]), (a + [x]) + b;
    forall i, j | 0 <= i < j < |t|
      ensures t[i] != t[j]
    {
      var i' := if i < |a| then i else if i == |a| then |a| + |b| else i - 1;
      var j' := if j < |a| then j else if j == |a| then |a| + |b| else j - 1;
      assert t[i] == s[i'] && t[j] == s[j'];
    }
  }

  lemma DistinctRemoved(a: seq<nat>, b: seq<nat>, k: nat)
    requires Distinct(a + b) && k < |a|
    ensures Distinct((a[..k] + a[k + 1..]) + b) && Distinct((a[..k] + a[k + 1..]) + (b + [a[k]]))
  {
    var s, t := a + b, (a[..k] + a[k + 1..]) + (b + [a[k]]);
    forall i, j | 0 <= i < j < |t|
      ensures t[i] != t[j]
    {
      var i' := if i < k then i else if i + 1 < |t| then i + 1 else k;
      var j' := if j < k then j else if j + 1 < |t| then j + 1 else k;
      assert t[i] == s[i'] && t[j] == s[j'];
    }
    assert ((a[..k] + a[k + 1..]) + b) == t[..|t| - 1];
  }

  class Link {
    var line: Line
    var queuedSends: nat
    var inflight: seq<Batch>
    var freeBatches: seq<nat>
    var flushScheduled: bool
    var destroyed: bool
    var pendingSends: nat
    var pendingData: nat
    var pendingControl: nat
    /** `isData` of every accepted job, by acceptance number. */
    var kinds: seq<bool>
    /** The settled jobs and what their promises were told. */
    var verdicts: map<nat, Verdict>

    /** History: the stream of every accepted job, the jobs in the order of selection, and
        every call of a job's `resolve` or `reject`. */
    ghost var accepted: seq<nat>
    ghost var selected: seq<nat>
    ghost var answers: multiset<nat>

    /** Pending counters count exactly the unsettled jobs, within their bounds, and every
        settled job was answered exactly once. */
    ghost predicate Counted()
      reads this`kinds, this`verdicts, this`answers, this`pendingSends, this`pendingData, this`pendingControl
    {
      && (forall j :: j in verdicts ==> j < |kinds|)
      && answers == multiset(verdicts.Keys)
      && pendingData == |Open(kinds, verdicts.Keys, true)|
      && pendingControl == |Open(kinds, verdicts.Keys, false)|
      && pendingSends == pendingData + pendingControl
      && pendingData <= Frames.CIRCUIT_WINDOW && pendingControl <= CONTROL_RESERVE
    }

    ghost predicate Lined()
      reads this`accepted, this`selected, this`line, this`queuedSends, this`destroyed
    {
      && Formed(line) && queuedSends == Backlog(line.order, line.queues)
      && (destroyed ==> line == EMPTY)
      && (!destroyed ==> Sound(History(line, accepted, selected)))
    }

    ghost predicate Batched()
      reads this`inflight, this`kinds, this`freeBatches, this`destroyed
    {
      Booked(inflight, freeBatches, |kinds|, destroyed)
    }

    ghost predicate Held(hands: seq<nat>)
      reads this`accepted, this`kinds, this`verdicts, this`line, this`inflight, this`destroyed
    {
      |accepted| == |kinds| && (if destroyed then AllIn(verdicts, accepted, hands) else HeldIn(verdicts, accepted, hands, line, inflight))
    }

    /** Nobody forgets to flush: while cells wait, a flush is scheduled or both batches
        are in flight, whose completion schedules one. */
    ghost predicate Awake()
      reads this
    {
      !destroyed && queuedSends != 0 ==> flushScheduled || |inflight| == SEND_PIPELINE_BATCHES
    }

    ghost predicate Valid()
      reads this
    {
      |accepted| == |kinds| && Counted() && Lined() && Batched()
    }

    constructor ()
      ensures Valid() && Held([]) && Awake() && !destroyed && |kinds| == 0 && |inflight| == 0
    {
      line, queuedSends := EMPTY, 0;
      inflight, freeBatches := [], [0, 1];
      flushScheduled, destroyed := false, false;
      pendingSends, pendingData, pendingControl := 0, 0, 0;
      kinds, verdicts := [], map[];
      accepted, selected, answers := [], [], multiset{};
      new;
      StartSound();
      assert Open(kinds, verdicts.Keys, true) == {} && Open(kinds, verdicts.Keys, false) == {};
    }

    /** `_settleSend`: the first verdict stands, a later one is ignored. */
    method Settle(job: nat, verdict: Verdict)
      requires Counted() && job < |kinds|
      modifies this`verdicts, this`answers, this`pendingSends, this`pendingData, this`pendingControl
      ensures Counted()
      ensures verdicts == if job in old(verdicts) then old(verdicts) else old(verdicts)[job := verdict]
    {
      hide Open;
      if job in verdicts {
        return;
      }
      SettleCounts(job, verdict);
      verdicts := verdicts[job := verdict];
      answers := answers + multiset{job};
      pendingSends := pendingSends - 1;
      if kinds[job] {
        pendingData := pendingData - 1;
      } else {
        pendingControl := pendingControl - 1;
      }
    }

    lemma SettleCounts(job: nat, verdict: Verdict)
      requires Counted() && job < |kinds| && job !in verdicts
      ensures var settled := verdicts[job := verdict].Keys;
              && (forall j :: j in settled ==> j < |kinds|)
              && multiset(settled) == answers + multiset{job}
              && |Open(kinds, settled, true)| == pendingData - (if kinds[job] then 1 else 0)
              && |Open(kinds, settled, false)| == pendingControl - (if kinds[job] then 0 else 1)
    {
      hide Open;
      assert verdicts[job := verdict].Keys == verdicts.Keys + {job};
      OpenSettled(kinds, verdicts.Keys, job, true);
      OpenSettled(kinds, verdicts.Keys, job, false);
    }

    method SettleAll(jobs: seq<nat>, verdict: Verdict)
      requires Counted() && AllKnown(jobs, |kinds|)
      modifies this`verdicts, this`answers, this`pendingSends, this`pendingData, this`pendingControl
      ensures Counted() && SettledTo(old(verdicts), verdicts, jobs, verdict)
    {
      hide Counted;
      for i := 0 to |jobs|
        invariant Counted() && SettledTo(old(verdicts), verdicts, jobs[..i], verdict)
      {
        Settle(jobs[i], verdict);
        assert jobs[..i + 1] == jobs[..i] + [jobs[i]];
      }
      assert jobs[..|jobs|] == jobs;
    }

    method SettleInflight()
      requires Counted() && forall i :: 0 <= i < |inflight| ==> AllKnown(inflight[i].jobs, |kinds|)
      modifies this`verdicts, this`answers, this`pendingSends, this`pendingData, this`pendingControl
      ensures Counted() && Adds(old(verdicts), verdicts, Lost)
      ensures forall b :: b in inflight ==> Told(verdicts, b.jobs)
    {
      hide Counted, SettledTo;
      for i := 0 to |inflight|
        invariant Counted() && Adds(old(verdicts), verdicts, Lost)
        invariant forall k :: 0 <= k < i ==> Told(verdicts, inflight[k].jobs)
      {
        ghost var mid := verdicts;
        SettleAll(inflight[i].jobs, Lost);
        AddsMore(old(verdicts), mid, verdicts, inflight[i].jobs, Lost);
      }
    }

    method SettleQueues()
      requires Counted()
      requires forall i :: 0 <= i < |line.order| ==>
        line.order[i] in line.queues && AllKnown(line.queues[line.order[i]].jobs, |kinds|)
      modifies this`verdicts, this`answers, this`pendingSends, this`pendingData, this`pendingControl
      ensures Counted() && Adds(old(verdicts), verdicts, Lost)
      ensures forall i :: 0 <= i < |line.order| ==> Told(verdicts, line.queues[line.order[i]].jobs)
    {
      hide Counted, SettledTo;
      for i := 0 to |line.order|
        invariant Counted() && Adds(old(verdicts), verdicts, Lost)
        invariant forall k :: 0 <= k < i ==> Told(verdicts, line.queues[line.order[k]].jobs)
      {
        ghost var mid := verdicts;
        SettleAll(line.queues[line.order[i]].jobs, Lost);
        AddsMore(old(verdicts), mid, verdicts, line.queues[line.order[i]].jobs, Lost);
      }
    }

    lemma QueuedKnown()
      requires Valid() && !destroyed
      ensures forall i :: 0 <= i < |line.order| ==>
        line.order[i] in line.queues && AllKnown(line.queues[line.order[i]].jobs, |kinds|)
      ensures forall id :: id in line.queues ==> id in line.order
    {
      hide Counted, Batched, InOrder, Distinct, Creation;
      forall i, k | 0 <= i < |line.order| && 0 <= k < |line.queues[line.order[i]].jobs|
        ensures line.queues[line.order[i]].jobs[k] < |kinds|
      {
        assert line.queues[line.order[i]].jobs[k] in Waiting(line, line.order[i]);
        WaitingBelong(line, accepted, selected, line.order[i], line.queues[line.order[i]].jobs[k]);
      }
    }

    lemma BatchesKnown()
      requires Batched()
      ensures forall i :: 0 <= i < |inflight| ==> AllKnown(inflight[i].jobs, |kinds|)
    {
    }

    /** The clearing half of `destroy`. */
    method Die()
      requires Valid() && !destroyed
      modifies this`line, this`queuedSends, this`freeBatches, this`destroyed
      ensures Valid() && destroyed
    {
      hide Counted, Booked;
      EmptyFormed();
      BookedDead(inflight, freeBatches, |kinds|);
      line, queuedSends, freeBatches, destroyed := EMPTY, 0, [], true;
    }

    /** `destroy`: every job in flight or in a queue is told. */
    method Destroy(ghost hands: seq<nat>)
      requires Valid() && Held(hands)
      modifies this
      ensures Valid() && Held(hands) && Awake() && destroyed && inflight == old(inflight)
      ensures kinds == old(kinds) && accepted == old(accepted) && selected == old(selected)
      ensures Adds(old(verdicts), verdicts, Lost) && (old(destroyed) ==> verdicts == old(verdicts))
    {
      hide Counted, Lined, Batched, Distinct, AllKnown, HeldIn, AllIn, AllTold, Told, Adds;
      if destroyed {
        NothingAdded(verdicts);
        return;
      }
      BatchesKnown();
      QueuedKnown();
      SettleInflight();
      ghost var mid := verdicts;
      SettleQueues();
      TellingMore(old(verdicts), mid, verdicts, inflight, line);
      HeldTold(old(verdicts), verdicts, accepted, hands, line, inflight);
      Die();
    }

    /** `_scheduleSends`. */
    method ScheduleSends()
      modifies this`flushScheduled
      ensures flushScheduled == (old(flushScheduled) || (!destroyed && queuedSends != 0))
    {
      if destroyed || flushScheduled || queuedSends == 0 {
        return;
      }
      flushScheduled := true;
    }

    /** `send`: an offer that does not fit or exceeds its bound kills the link. */
    method Send(o: Offer, ghost hands: seq<nat>) returns (job: Option<nat>)
      requires Valid() && Held(hands)
      modifies this
      ensures Valid() && Held(hands) && Awake() && inflight == old(inflight) && selected == old(selected)
      ensures job.Some? <==>
        && o.fits && !old(destroyed)
        && (if o.isData then old(pendingData) < Frames.CIRCUIT_WINDOW else old(pendingControl) < CONTROL_RESERVE)
      ensures job.Some? ==>
        && job.value == |old(kinds)| && kinds == old(kinds) + [o.isData] && accepted == old(accepted) + [o.stream]
        && !destroyed && verdicts == old(verdicts) && queuedSends == old(queuedSends) + 1 && flushScheduled
      ensures job.Some? ==>
        && line == Enqueued(old(line), o.stream, job.value)
        && pendingData == old(pendingData) + (if o.isData then 1 else 0)
        && pendingControl == old(pendingControl) + (if o.isData then 0 else 1)
      ensures job.None? ==>
        destroyed && kinds == old(kinds) && accepted == old(accepted) && Adds(old(verdicts), verdicts, Lost)
    {
      hide Counted, Lined, Batched, HeldIn, AllIn, Adds;
      if !o.fits || destroyed || (if o.isData then pendingData >= Frames.CIRCUIT_WINDOW else pendingControl >= CONTROL_RESERVE) {
        Destroy(hands);
        return None;
      }
      job := Some(|kinds|);
      Accept(o, hands);
      ScheduleSends();
    }

    method Accept(o: Offer, ghost hands: seq<nat>)
      requires Valid() && Held(hands) && !destroyed
      requires if o.isData then pendingData < Frames.CIRCUIT_WINDOW else pendingControl < CONTROL_RESERVE
      modifies this
      ensures Valid() && Held(hands) && inflight == old(inflight) && selected == old(selected)
      ensures kinds == old(kinds) + [o.isData] && accepted == old(accepted) + [o.stream]
      ensures !destroyed && verdicts == old(verdicts) && queuedSends == old(queuedSends) + 1
      ensures flushScheduled == old(flushScheduled) && line == Enqueued(old(line), o.stream, |old(kinds)|)
      ensures pendingData == old(pendingData) + (if o.isData then 1 else 0)
      ensures pendingControl == old(pendingControl) + (if o.isData then 0 else 1)
    {
      hide Open, HeldIn, Enqueued, Formed, Sound, Backlog, AllKnown, Distinct, Counted, Lined, Batched;
      HeldAccepted(verdicts, accepted, hands, line, inflight, o.stream);
      LineUp(o.stream, |kinds|);
      CountIn(o.isData);
    }

    method CountIn(isData: bool)
      requires Counted() && Batched()
      requires if isData then pendingData < Frames.CIRCUIT_WINDOW else pendingControl < CONTROL_RESERVE
      modifies this`kinds, this`pendingSends, this`pendingData, this`pendingControl
      ensures Counted() && Batched() && kinds == old(kinds) + [isData]
      ensures pendingData == old(pendingData) + (if isData then 1 else 0)
      ensures pendingControl == old(pendingControl) + (if isData then 0 else 1)
    {
      hide Booked, Open;
      CountAccepted(isData);
      BookedMore(inflight, freeBatches, |kinds|, destroyed);
      kinds, pendingSends := kinds + [isData], pendingSends + 1;
      if isData {
        pendingData := pendingData + 1;
      } else {
        pendingControl := pendingControl + 1;
      }
    }

    method LineUp(stream: nat, job: nat)
      requires Lined() && !destroyed && job == |accepted|
      modifies this`line, this`queuedSends, this`accepted
      ensures Lined() && queuedSends == old(queuedSends) + 1
      ensures accepted == old(accepted) + [stream] && line == Enqueued(old(line), stream, job)
    {
      hide Sound, Formed, Backlog, Enqueued;
      LineAccepted(stream);
      line, queuedSends := Enqueued(line, stream, job), queuedSends + 1;
      accepted := accepted + [stream];
    }

    lemma CountAccepted(isData: bool)
      requires Counted()
      ensures var kinds' := kinds + [isData];
              && (forall j :: j in verdicts ==> j < |kinds'|)
              && |Open(kinds', verdicts.Keys, true)| == pendingData + (if isData then 1 else 0)
              && |Open(kinds', verdicts.Keys, false)| == pendingControl + (if isData then 0 else 1)
    {
      OpenAccepted(kinds, verdicts.Keys, isData, true);
      OpenAccepted(kinds, verdicts.Keys, isData, false);
    }

    lemma LineAccepted(stream: nat)
      requires Lined() && !destroyed
      ensures var line' := Enqueued(line, stream, |accepted|);
              && Formed(line') && Backlog(line'.order, line'.queues) == queuedSends + 1
              && Sound(History(line', accepted + [stream], selected))
    {
      hide Sound, Formed, Backlog, Enqueued;
      EnqueuedFormed(line, stream, |accepted|);
      EnqueuedBacklog(line, stream, |accepted|);
      StepSound(History(line, accepted, selected), SendQueues.Accept(stream),
                History(Enqueued(line, stream, |accepted|), accepted + [stream], selected));
    }

    lemma LineSelected()
      requires Lined() && !destroyed && queuedSends > 0
      ensures line.order != [] && Formed(line)
      ensures var line' := Served(line);
              && Formed(line') && Backlog(line'.order, line'.queues) == queuedSends - 1
              && Chosen(line) < |accepted|
              && Sound(History(line', accepted, selected + [Chosen(line)]))
    {
      assert line.order != [];
      assert Chosen(line) in Waiting(line, line.order[0]);
      WaitingBelong(line, accepted, selected, line.order[0], Chosen(line));
      hide Sound, Formed, Backlog, Served;
      ServedFormed(line);
      ServedBacklog(line);
      StepSound(History(line, accepted, selected), Select, History(Served(line), accepted, selected + [Chosen(line)]));
    }

    /** `_nextSend`. */
    method NextSend() returns (job: nat)
      requires Valid() && !destroyed && queuedSends > 0 && Held([])
      modifies this`line, this`queuedSends, this`selected
      ensures Valid() && Held([job]) && queuedSends == old(queuedSends) - 1
      ensures job < |kinds| && selected == old(selected) + [job]
      ensures Formed(old(line)) && old(line).order != [] && job == Chosen(old(line)) && line == Served(old(line))
    {
      hide Counted, Batched, HeldIn, Formed, Served, Sound, Backlog, Chosen;
      LineSelected();
      HeldSelected(verdicts, accepted, line, inflight);
      job := Chosen(line);
      line, queuedSends, selected := Served(line), queuedSends - 1, selected + [job];
    }

    /** A free buffer goes into flight before anything is sealed into it. */
    method TakeBatch()
      requires Valid() && Held([]) && !destroyed && |inflight| < SEND_PIPELINE_BATCHES
      modifies this`inflight, this`freeBatches
      ensures Valid() && Held([])
      ensures |inflight| == |old(inflight)| + 1 && inflight[..|old(inflight)|] == old(inflight)
      ensures inflight[|old(inflight)|].jobs == []
    {
      hide Counted, Lined, HeldIn, Booked;
      FreeLeft();
      var last := |freeBatches| - 1;
      assert freeBatches == freeBatches[..last] + [freeBatches[last]];
      BookedTaken(inflight, freeBatches[..last], freeBatches[last], |kinds|);
      HeldTaken(verdicts, accepted, line, inflight, Batch(freeBatches[last], []));
      inflight, freeBatches := inflight + [Batch(freeBatches[last], [])], freeBatches[..last];
    }

    lemma FreeLeft()
      requires Batched() && !destroyed && |inflight| < SEND_PIPELINE_BATCHES
      ensures freeBatches != []
    {
    }

    /** The selected job is registered in the newest batch before it is sealed. */
    method Register(job: nat)
      requires Valid() && Held([job]) && !destroyed && job < |kinds|
      requires inflight != [] && |inflight[|inflight| - 1].jobs| < SEND_BATCH_CELLS
      modifies this`inflight
      ensures Valid() && Held([]) && inflight == Registered(old(inflight), job)
    {
      hide Counted, Lined, HeldIn, Booked;
      BookedRegistered(inflight, freeBatches, |kinds|, job);
      HeldRegistered(verdicts, accepted, line, inflight, job);
      var last := |inflight| - 1;
      inflight := inflight[last := inflight[last].(jobs := inflight[last].jobs + [job])];
    }

    /** Whatever the observer does: send again, or destroy the link.  The link survives
        exactly when it can bear all of it. */
    method Obey(actions: seq<Action>)
      requires Valid() && Held([]) && !destroyed
      modifies this
      ensures Valid() && Held([]) && inflight == old(inflight) && selected == old(selected)
      ensures Adds(old(verdicts), verdicts, Lost)
      ensures var load := Borne(old(Load(pendingData, pendingControl)), actions);
              && (destroyed <==> load.None?)
              && (load.Some? ==> load.value == Load(pendingData, pendingControl) && verdicts == old(verdicts))
      ensures !destroyed ==> queuedSends == old(queuedSends) + |actions|
      ensures actions == [] ==> line == old(line) && queuedSends == old(queuedSends)
    {
      NothingAdded(verdicts);
      hide Counted, Lined, Batched, Held, Adds, Enqueued;
      for i := 0 to |actions|
        invariant Valid() && Held([]) && inflight == old(inflight) && selected == old(selected) && !destroyed
        invariant Adds(old(verdicts), verdicts, Lost) && verdicts == old(verdicts)
        invariant Borne(old(Load(pendingData, pendingControl)), actions[..i]) == Some(Load(pendingData, pendingControl))
        invariant queuedSends == old(queuedSends) + i
        invariant i == 0 ==> line == old(line)
      {
        assert actions[..i + 1][..i] == actions[..i];
        match actions[i] {
          case Resend(offer) =>
            var job := Send(offer, []);
          case Redestroy =>
            Destroy([]);
        }
        if destroyed {
          NeverBorne(old(Load(pendingData, pendingControl)), actions, i + 1);
          return;
        }
      }
      assert actions[..|actions|] == actions;
    }

    /** One round of sealing: select, register, seal.  The link survives exactly when
        neither the sealing throws nor the observer's actions kill it. */
    method SealNext(seal: nat -> Sealing)
      requires Valid() && Held([]) && !destroyed && queuedSends > 0
      requires inflight != [] && |inflight[|inflight| - 1].jobs| < SEND_BATCH_CELLS
      modifies this
      ensures Valid() && Held([])
      ensures Formed(old(line)) && old(line).order != [] && selected == old(selected) + [Chosen(old(line))]
      ensures var job := Chosen(old(line));
              && inflight == Registered(old(inflight), job)
              && (destroyed <==> seal(job).throws || Borne(old(Load(pendingData, pendingControl)), seal(job).actions).None?)
              && (Calm(seal(job)) ==> !destroyed && line == Served(old(line)) && queuedSends == old(queuedSends) - 1)
              && (!destroyed ==> verdicts == old(verdicts) && queuedSends == old(queuedSends) - 1 + |seal(job).actions|)
      ensures Adds(old(verdicts), verdicts, Lost)
    {
      hide Counted, Lined, Batched, Held, Adds, Served, Chosen, Registered;
      var job := NextSend();
      Register(job);
      Obey(seal(job).actions);
      if seal(job).throws {
        ghost var mid := verdicts;
        Destroy([]);
        AddsOnward(old(verdicts), mid, verdicts);
      }
    }

    /** One batch: min(64, queued) cells, cut short only by the death of the link.  If no
        sealing disturbs it, the link lives and the cells are the scheduler's next ones. */
    method FillBatch(seal: nat -> Sealing)
      requires Valid() && Held([]) && !destroyed && queuedSends > 0 && |inflight| < SEND_PIPELINE_BATCHES
      modifies this
      ensures Valid() && Held([]) && Adds(old(verdicts), verdicts, Lost) && old(selected) <= selected
      ensures !destroyed ==>
        && Filling(old(inflight), old(selected), inflight, selected) && verdicts == old(verdicts)
        && |selected| - |old(selected)| == Min(SEND_BATCH_CELLS, old(queuedSends))
      ensures AllCalm(seal, selected[|old(selected)|..]) ==>
        !destroyed && Scheduled(old(line), old(queuedSends), old(selected), line, queuedSends, selected)
    {
      hide Counted, Lined, Held, Adds, Batched, Scheduled, Served, Chosen, Formed, Borne, Filling, Registered, AllCalm, Calm;
      NothingAdded(verdicts);
      LineFormed();
      ScheduledNone(line, queuedSends, selected);
      var count := Min(SEND_BATCH_CELLS, queuedSends);
      TakeBatch();
      FillingBegins(old(inflight), old(selected), inflight);
      for i := 0 to count
        invariant Valid() && Held([]) && !destroyed && verdicts == old(verdicts)
        invariant Filling(old(inflight), old(selected), inflight, selected)
        invariant inflight != [] && old(selected) <= selected && |selected| == |old(selected)| + i
        invariant queuedSends >= count - i
        invariant AllCalm(seal, selected[|old(selected)|..]) ==>
          Scheduled(old(line), old(queuedSends), old(selected), line, queuedSends, selected)
      {
        LineReady();
        ghost var job, s := Chosen(line), selected;
        FillingGrows(old(inflight), old(selected), inflight, selected, job);
        ghost var l, q := line, queuedSends;
        if AllCalm(seal, selected[|old(selected)|..]) {
          ScheduledOne(old(line), old(queuedSends), old(selected), line, queuedSends, selected);
        }
        SealNext(seal);
        CalmSoFar(seal, s[|old(selected)|..], job);
        if destroyed {
          DropBatch(|inflight| - 1, []);
          return;
        }
      }
    }

    lemma LineReady()
      requires Lined() && queuedSends > 0
      ensures Formed(line) && line.order != []
    {
      BacklogPositive(line);
    }

    lemma LineFormed()
      requires Lined()
      ensures Formed(line) && queuedSends == Backlog(line.order, line.queues)
    {
    }

    /** A batch leaves flight, and on a live link its buffer is free again.  (The source
        frees it after settling its jobs; only `destroy`, which empties the free list, can
        run in between.) */
    method DropBatch(k: nat, ghost hands: seq<nat>)
      requires Valid() && Held(hands) && k < |inflight| && (destroyed || hands == [])
      modifies this`inflight, this`freeBatches
      ensures |accepted| == |kinds| && Counted() && Lined() && inflight == old(inflight[..k] + inflight[k + 1..])
      ensures freeBatches == if destroyed then [] else old(freeBatches) + [old(inflight[k].id)]
      ensures Batched()
      ensures Held(if destroyed then hands else old(inflight[k].jobs))
    {
      hide Counted, Lined, Booked, HeldIn, AllIn;
      if !destroyed {
        HeldRemoved(verdicts, accepted, line, inflight, k);
      }
      BookedDropped(inflight, freeBatches, |kinds|, destroyed, k);
      BookedDeadFree(inflight, freeBatches, |kinds|, destroyed);
      if !destroyed {
        freeBatches := freeBatches + [inflight[k].id];
      }
      inflight := inflight[..k] + inflight[k + 1..];
    }

    /** `_flushSends`, as the scheduled flush runs it.  On a link that stays alive the new
        batches hold exactly the newly selected jobs, and it stops only with nothing queued
        or both batches in flight.  If no sealing disturbs it, the link does stay alive and
        the jobs are the scheduler's next ones, as many as the free batches hold. */
    method FlushSends(seal: nat -> Sealing)
      requires Valid() && Held([])
      modifies this
      ensures Valid() && Held([]) && Awake() && Adds(old(verdicts), verdicts, Lost) && old(selected) <= selected
      ensures old(destroyed) ==> destroyed && selected == old(selected) && verdicts == old(verdicts)
      ensures !destroyed ==>
        && |old(inflight)| <= |inflight| && inflight[..|old(inflight)|] == old(inflight) && verdicts == old(verdicts)
        && Riding(inflight[|old(inflight)|..]) == selected[|old(selected)|..]
        && (queuedSends == 0 || |inflight| == SEND_PIPELINE_BATCHES)
      ensures !old(destroyed) && AllCalm(seal, selected[|old(selected)|..]) ==>
        && !destroyed && Scheduled(old(line), old(queuedSends), old(selected), line, queuedSends, selected)
        && |selected| - |old(selected)| ==
             Min(old(queuedSends), SEND_BATCH_CELLS * (SEND_PIPELINE_BATCHES - |old(inflight)|))
    {
      hide Counted, Lined, Held, Adds, Batched, Scheduled, Formed, Filling, AllCalm, Riding;
      NothingAdded(verdicts);
      LineFormed();
      ScheduledNone(line, queuedSends, selected);
      NothingRides();
      flushScheduled := false;
      while !destroyed && |inflight| < SEND_PIPELINE_BATCHES && queuedSends != 0
        invariant Valid() && Held([]) && Adds(old(verdicts), verdicts, Lost) && old(selected) <= selected
        invariant old(destroyed) ==> destroyed && selected == old(selected) && verdicts == old(verdicts)
        invariant !destroyed ==>
          && |old(inflight)| <= |inflight| && inflight[..|old(inflight)|] == old(inflight) && verdicts == old(verdicts)
          && Riding(inflight[|old(inflight)|..]) == selected[|old(selected)|..]
        invariant !old(destroyed) && AllCalm(seal, selected[|old(selected)|..]) ==>
          && !destroyed && Scheduled(old(line), old(queuedSends), old(selected), line, queuedSends, selected)
          && |selected| - |old(selected)| == Min(old(queuedSends), SEND_BATCH_CELLS * (|inflight| - |old(inflight)|))
        decreases !destroyed, SEND_PIPELINE_BATCHES - |inflight|
      {
        ghost var mid, f, l, q, s := verdicts, inflight, line, queuedSends, selected;
        FillBatch(seal);
        AddsOnward(old(verdicts), mid, verdicts);
        CalmParts(seal, old(selected), s, selected);
        if !destroyed {
          RidingGrows(old(inflight), old(selected), f, s, inflight, selected);
          FillingLonger(f, s, inflight, selected);
        }
        if AllCalm(seal, selected[|old(selected)|..]) {
          ScheduledCounts(old(line), old(queuedSends), old(selected), l, q, s);
          ScheduledOnward(old(line), old(queuedSends), old(selected), l, q, s, line, queuedSends, selected);
        }
      }
      AtMostTwo();
      if AllCalm(seal, selected[|old(selected)|..]) && !old(destroyed) {
        ScheduledCounts(old(line), old(queuedSends), old(selected), line, queuedSends, selected);
      }
    }

    lemma AtMostTwo()
      requires Batched()
      ensures |inflight| <= SEND_PIPELINE_BATCHES
    {
    }

    lemma NothingRides()
      ensures Riding(inflight[|inflight|..]) == []
    {
    }

    /** `_finishBatch`: the write of the batch at place k in flight ended.  Its jobs are told
        they were sent exactly when the write succeeded on a live link. */
    method FinishBatch(k: nat, error: bool)
      requires Valid() && Held([]) && Awake() && k < |inflight|
      modifies this
      ensures Valid() && Held([]) && Awake() && Told(verdicts, old(inflight[k].jobs))
      ensures inflight == old(inflight[..k] + inflight[k + 1..])
      ensures !destroyed ==> line == old(line) && queuedSends == old(queuedSends) && selected == old(selected)
      ensures !error && !old(destroyed) ==> !destroyed && SettledTo(old(verdicts), verdicts, old(inflight[k].jobs), Sent)
      ensures error || old(destroyed) ==> destroyed && Adds(old(verdicts), verdicts, Lost)
    {
      hide Counted, Lined, Held, Adds, Batched, SettledTo, Told, AllKnown;
      BatchesKnown();
      NothingAdded(verdicts);
      var batch := inflight[k];
      assert batch in inflight;
      ghost var hands := if destroyed then [] else batch.jobs;
      DropBatch(k, []);
      if error {
        Destroy(hands);
      }
      ghost var mid := verdicts;
      SettleBatch(batch.jobs, hands);
      if destroyed {
        AddsMore(old(verdicts), mid, verdicts, batch.jobs, Lost);
      } else {
        SettledTells(mid, verdicts, batch.jobs, Sent);
      }
      ScheduleSends();
    }

    /** The jobs of a finished batch leave the hands of its completion. */
    method SettleBatch(jobs: seq<nat>, ghost hands: seq<nat>)
      requires Valid() && Held(hands) && AllKnown(jobs, |kinds|) && (hands == jobs || hands == [])
      modifies this`verdicts, this`answers, this`pendingSends, this`pendingData, this`pendingControl
      ensures Valid() && Held([]) && SettledTo(old(verdicts), verdicts, jobs, if destroyed then Lost else Sent)
    {
      hide Counted, Lined, Batched, InFlight, Waiting, AllKnown;
      SettleAll(jobs, if destroyed then Lost else Sent);
    }

    /** When the link is dead and no operation is running, every job it ever accepted has
        been told exactly once, and nothing is pending. */
    lemma DeadLinkOwesNothing()
      requires Valid() && Held([]) && destroyed
      ensures forall j :: 0 <= j < |kinds| ==> answers[j] == 1
      ensures pendingSends == pendingData == pendingControl == 0
    {
      assert forall j :: 0 <= j < |kinds| ==> j in verdicts.Keys;
      assert Open(kinds, verdicts.Keys, true) == {} && Open(kinds, verdicts.Keys, false) == {};
    }

    /** A live link answers no job twice, and every job it has not answered waits in its
        queue or rides in a batch. */
    lemma LiveLinkHoldsTheRest(job: nat)
      requires Valid() && Held([]) && !destroyed
      ensures answers[job] <= 1
      ensures job < |kinds| && answers[job] == 0 ==> job in Waiting(line, accepted[job]) || InFlight(inflight, job)
    {
      hide Lined, Batched, InFlight, Waiting, Open;
    }
  }
}
