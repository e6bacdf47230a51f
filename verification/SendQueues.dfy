/**
 The send scheduler of a circuit link: deficit round robin over one queue per stream.
 A job is named by its acceptance number; deficits are counted in cells, which divide the
 byte quantum exactly.
 */
module SendQueues {
  const SEND_QUANTUM: nat := 4

  datatype Queue = Queue(jobs: seq<nat>, deficit: nat)

  /** `order` is the list from `sendHead` to `sendTail`; `queues` is the map by stream id. */
  datatype Line = Line(order: seq<nat>, queues: map<nat, Queue>)

  const EMPTY: Line := Line([], map[])

  /** The tail of `send`: a job joins its stream's queue, a new queue joins the list. */
  function Enqueued(l: Line, id: nat, job: nat): Line
  {
    if id in l.queues then
      l.(queues := l.queues[id := l.queues[id].(jobs := l.queues[id].jobs + [job])])
    else
      Line(l.order + [id], l.queues[id := Queue([job], 0)])
  }

  /** The job `_nextSend` returns. */
  function Chosen(l: Line): nat
    requires Formed(l) && l.order != []
  {
    l.queues[l.order[0]].jobs[0]
  }

  /** What `_nextSend` leaves. */
  function Served(l: Line): Line
    requires Formed(l) && l.order != []
  {
    var h := l.order[0];
    var q := l.queues[h];
    var deficit := Turn(q) - 1;
    var rest := q.jobs[1..];
    if rest == [] then
      Line(l.order[1..], l.queues - {h})
    else if deficit == 0 && |l.order| > 1 then
      Line(l.order[1..] + [h], l.queues[h := Queue(rest, 0)])
    else
      l.(queues := l.queues[h := Queue(rest, deficit)])
  }

  /** How many cells a queue may still send in its present turn. */
  function Turn(q: Queue): nat
  {
    if q.deficit == 0 then SEND_QUANTUM else q.deficit
  }

  ghost predicate Distinct(order: seq<nat>)
  {
    forall i, j :: 0 <= i < j < |order| ==> order[i] != order[j]
  }

  /** The list and the map hold the same queues, each once, none empty; only the queue at
      the head is in the middle of a turn. */
  ghost predicate Formed(l: Line)
  {
    && Distinct(l.order)
    && (forall id :: id in l.queues <==> id in l.order)
    && (forall id :: id in l.queues ==> l.queues[id].jobs != [] && l.queues[id].deficit <= SEND_QUANTUM)
    && (forall i :: 0 < i < |l.order| ==> l.queues[l.order[i]].deficit == 0)
  }

  lemma EnqueuedFormed(l: Line, id: nat, job: nat)
    requires Formed(l)
    ensures Formed(Enqueued(l, id, job))
  {
  }

  lemma TailHasTheRest(order: seq<nat>, id: nat)
    requires Distinct(order) && order != []
    ensures id in order[1..] <==> id in order && id != order[0]
  {
    if id in order && id != order[0] {
      var i :| 0 <= i < |order| && order[i] == id;
      assert order[1..][i - 1] == id;
    }
  }

  lemma ServedDistinct(order: seq<nat>)
    requires Distinct(order) && order != []
    ensures Distinct(order[1..]) && Distinct(order[1..] + [order[0]])
  {
  }

  lemma RotationHasAll(order: seq<nat>, id: nat)
    requires order != []
    ensures id in order[1..] + [order[0]] <==> id in order
  {
    assert order == [order[0]] + order[1..];
  }

  lemma ServedKeys(l: Line, id: nat)
    requires Formed(l) && l.order != []
    ensures id in Served(l).queues <==> id in Served(l).order
  {
    TailHasTheRest(l.order, id);
    RotationHasAll(l.order, id);
    hide Distinct;
  }

  lemma ServedFormed(l: Line)
    requires Formed(l) && l.order != []
    ensures Formed(Served(l))
  {
    ServedDistinct(l.order);
    var l' := Served(l);
    hide Distinct;
    forall id
      ensures id in l'.queues <==> id in l'.order
    {
      ServedKeys(l, id);
    }
    ServedQueues(l);
  }

  /** No queue is empty, and none but the head is mid-turn. */
  lemma ServedQueues(l: Line)
    requires Formed(l) && l.order != []
    ensures forall id :: id in Served(l).queues ==>
      Served(l).queues[id].jobs != [] && Served(l).queues[id].deficit <= SEND_QUANTUM
    ensures forall i :: 0 < i < |Served(l).order| && Served(l).order[i] in Served(l).queues ==>
      Served(l).queues[Served(l).order[i]].deficit == 0
  {
  }

  /** Selection takes the head queue off the front of the list, or leaves the list alone. */
  ghost function Shift(l: Line): (d: nat)
    requires Formed(l) && l.order != []
    ensures d <= 1
  {
    if Served(l).order == l.order then 0 else 1
  }

  lemma ServedLength(l: Line)
    requires Formed(l) && l.order != []
    ensures |l.order| - Shift(l) <= |Served(l).order| <= |l.order|
  {
  }

  /** Position i of the new list is position i + d of the old, or the old head. */
  lemma ServedPosition(l: Line, i: nat)
    requires Formed(l) && l.order != [] && i < |Served(l).order|
    ensures Served(l).order[i] == if i + Shift(l) < |l.order| then l.order[i + Shift(l)] else l.order[0]
  {
  }

  /** A head that stays in front has its turn reduced by one, and more of it left if
      anyone waits behind it. */
  lemma ServedStays(l: Line)
    requires Formed(l) && l.order != [] && Shift(l) == 0
    ensures l.order[0] in Served(l).queues && Served(l).queues[l.order[0]].deficit == Turn(l.queues[l.order[0]]) - 1
    ensures |l.order| > 1 ==> Turn(l.queues[l.order[0]]) > 1
  {
    assert |l.order| > 1 ==> l.order[1] != l.order[0];
  }

  // ---- the queue length kept in `queuedSends` ----

  ghost function Backlog(order: seq<nat>, queues: map<nat, Queue>): nat
    requires forall id :: id in order ==> id in queues
  {
    if order == [] then 0 else |queues[order[0]].jobs| + Backlog(order[1..], queues)
  }

  lemma {:induction false} BacklogKept(order: seq<nat>, queues: map<nat, Queue>, queues': map<nat, Queue>)
    requires forall id :: id in order ==> id in queues && id in queues' && |queues'[id].jobs| == |queues[id].jobs|
    ensures Backlog(order, queues') == Backlog(order, queues)
  {
    if order != [] {
      BacklogKept(order[1..], queues, queues');
    }
  }

  lemma {:induction false} BacklogAppend(order: seq<nat>, id: nat, queues: map<nat, Queue>)
    requires id in queues && forall k :: k in order ==> k in queues
    ensures Backlog(order + [id], queues) == Backlog(order, queues) + |queues[id].jobs|
  {
    if order == [] {
      assert order + [id] == [id];
    } else {
      assert (order + [id])[1..] == order[1..] + [id];
      BacklogAppend(order[1..], id, queues);
    }
  }

  lemma {:induction false} BacklogGrown(order: seq<nat>, id: nat, q: Queue, queues: map<nat, Queue>)
    requires id in order && forall k :: k in order ==> k in queues
    requires Distinct(order)
    requires |q.jobs| == |queues[id].jobs| + 1
    ensures Backlog(order, queues[id := q]) == Backlog(order, queues) + 1
  {
    if order[0] == id {
      BacklogKept(order[1..], queues, queues[id := q]);
    } else {
      BacklogGrown(order[1..], id, q, queues);
    }
  }

  lemma EnqueuedBacklog(l: Line, id: nat, job: nat)
    requires Formed(l) && Formed(Enqueued(l, id, job))
    ensures Backlog(Enqueued(l, id, job).order, Enqueued(l, id, job).queues) == Backlog(l.order, l.queues) + 1
  {
    var l' := Enqueued(l, id, job);
    if id in l.queues {
      BacklogGrown(l.order, id, l'.queues[id], l.queues);
    } else {
      BacklogKept(l.order, l.queues, l'.queues);
      BacklogAppend(l.order, id, l'.queues);
    }
  }

  lemma ServedBacklog(l: Line)
    requires Formed(l) && l.order != [] && Formed(Served(l))
    ensures Backlog(Served(l).order, Served(l).queues) == Backlog(l.order, l.queues) - 1
  {
    var l', h := Served(l), l.order[0];
    BacklogKept(l.order[1..], l.queues, l'.queues);
    if l'.order == l.order[1..] + [h] {
      BacklogAppend(l.order[1..], h, l'.queues);
    }
  }

  lemma BacklogPositive(l: Line)
    requires Formed(l) && Backlog(l.order, l.queues) > 0
    ensures l.order != []
  {
  }

  // ---- the next n cells ----

  /** The line after n selections with no send in between. */
  ghost function After(l: Line, n: nat): (r: Line)
    requires Formed(l) && n <= Backlog(l.order, l.queues)
    ensures Formed(r) && Backlog(r.order, r.queues) == Backlog(l.order, l.queues) - n
  {
    if n == 0 then l else
    var r := After(l, n - 1);
    BacklogPositive(r);
    ServedFormed(r);
    ServedBacklog(r);
    Served(r)
  }

  /** The jobs of those selections, in order. */
  ghost function Schedule(l: Line, n: nat): (jobs: seq<nat>)
    requires Formed(l) && n <= Backlog(l.order, l.queues)
    ensures |jobs| == n
  {
    if n == 0 then [] else
    BacklogPositive(After(l, n - 1));
    Schedule(l, n - 1) + [Chosen(After(l, n - 1))]
  }

  lemma {:induction false} ScheduleSplits(l: Line, a: nat, b: nat)
    requires Formed(l) && a + b <= Backlog(l.order, l.queues)
    ensures After(l, a + b) == After(After(l, a), b)
    ensures Schedule(l, a + b) == Schedule(l, a) + Schedule(After(l, a), b)
    decreases b
  {
    hide Served, Chosen, Formed, Backlog;
    if b > 0 {
      ScheduleSplits(l, a, b - 1);
      assert a + b - 1 == a + (b - 1);
    }
  }

  // ---- a stream's cells keep their order ----

  /** The jobs of `s` that belong to stream `id`, in the order of `s`. */
  ghost function Picks(accepted: seq<nat>, s: seq<nat>, id: nat): seq<nat>
  {
    if s == [] then []
    else if s[|s| - 1] < |accepted| && accepted[s[|s| - 1]] == id then Picks(accepted, s[..|s| - 1], id) + [s[|s| - 1]]
    else Picks(accepted, s[..|s| - 1], id)
  }

  /** All jobs accepted for stream `id`, in the order of acceptance. */
  ghost function Accepted(accepted: seq<nat>, id: nat): seq<nat>
  {
    if accepted == [] then []
    else
      var n := |accepted| - 1;
      Accepted(accepted[..n], id) + if accepted[n] == id then [n] else []
  }

  ghost function Waiting(l: Line, id: nat): seq<nat>
  {
    if id in l.queues then l.queues[id].jobs else []
  }

  ghost predicate AllBelow(s: seq<nat>, n: nat)
  {
    forall i :: 0 <= i < |s| ==> s[i] < n
  }

  /** Nothing lost, nothing doubled, nothing reordered: what was selected of a stream,
      followed by what waits, is what was accepted, for every stream. */
  ghost predicate InOrder(l: Line, accepted: seq<nat>, selected: seq<nat>)
  {
    && AllBelow(selected, |accepted|)
    && (forall id: nat :: Picks(accepted, selected, id) + Waiting(l, id) == Accepted(accepted, id))
  }

  lemma {:induction false} PicksKept(accepted: seq<nat>, more: seq<nat>, s: seq<nat>, id: nat)
    requires AllBelow(s, |accepted|)
    ensures Picks(accepted + more, s, id) == Picks(accepted, s, id)
  {
    if s != [] {
      PicksKept(accepted, more, s[..|s| - 1], id);
    }
  }

  lemma EnqueuedInOrder(l: Line, accepted: seq<nat>, selected: seq<nat>, id: nat)
    requires Formed(l) && InOrder(l, accepted, selected)
    ensures InOrder(Enqueued(l, id, |accepted|), accepted + [id], selected)
  {
    var l', accepted' := Enqueued(l, id, |accepted|), accepted + [id];
    forall k: nat
      ensures Picks(accepted', selected, k) + Waiting(l', k) == Accepted(accepted', k)
    {
      PicksKept(accepted, [id], selected, k);
      assert accepted'[..|accepted|] == accepted;
      assert Picks(accepted, selected, k) + Waiting(l, k) == Accepted(accepted, k);
    }
  }

  /** A job waiting on a stream was accepted for it. */
  lemma {:induction false} AcceptedBelong(accepted: seq<nat>, id: nat, j: nat)
    requires j in Accepted(accepted, id)
    ensures j < |accepted| && accepted[j] == id
  {
    var n := |accepted| - 1;
    if j in Accepted(accepted[..n], id) {
      AcceptedBelong(accepted[..n], id, j);
    }
  }

  lemma WaitingBelong(l: Line, accepted: seq<nat>, selected: seq<nat>, id: nat, j: nat)
    requires InOrder(l, accepted, selected) && j in Waiting(l, id)
    ensures j < |accepted| && accepted[j] == id
  {
    assert j in Picks(accepted, selected, id) + Waiting(l, id);
    AcceptedBelong(accepted, id, j);
  }

  /** Selection moves one job from the head of its queue to the end of the selection. */
  lemma ServedWaiting(l: Line, id: nat)
    requires Formed(l) && l.order != []
    ensures Waiting(l, id) == (if id == l.order[0] then [Chosen(l)] else []) + Waiting(Served(l), id)
  {
    assert l.order[0] in l.queues;
  }

  lemma PicksLonger(accepted: seq<nat>, s: seq<nat>, j: nat, id: nat)
    requires j < |accepted|
    ensures Picks(accepted, s + [j], id) == Picks(accepted, s, id) + if accepted[j] == id then [j] else []
  {
    assert (s + [j])[..|s|] == s;
  }

  lemma ServedInOrder(l: Line, accepted: seq<nat>, selected: seq<nat>)
    requires Formed(l) && l.order != [] && InOrder(l, accepted, selected)
    ensures Formed(Served(l)) && InOrder(Served(l), accepted, selected + [Chosen(l)])
  {
    hide Waiting, Formed, Served, Accepted, Picks, Chosen;
    ServedFormed(l);
    var l', j, h := Served(l), Chosen(l), l.order[0];
    ServedWaiting(l, h);
    WaitingBelong(l, accepted, selected, h, j);
    forall id: nat
      ensures Picks(accepted, selected + [j], id) + Waiting(l', id) == Accepted(accepted, id)
    {
      assert Picks(accepted, selected, id) + Waiting(l, id) == Accepted(accepted, id);
      ServedWaiting(l, id);
      PicksLonger(accepted, selected, j, id);
    }
  }

  // ---- fresh streams start in the order of their creation ----

  /** Job j is the first one accepted for its stream. */
  ghost predicate IsFirst(accepted: seq<nat>, j: nat)
  {
    j < |accepted| && forall k :: 0 <= k < j ==> accepted[k] != accepted[j]
  }

  /** Nothing of this stream was selected yet. */
  ghost predicate IsFresh(accepted: seq<nat>, selected: seq<nat>, id: nat)
  {
    Picks(accepted, selected, id) == []
  }

  /** First jobs were selected in ascending order. */
  ghost predicate FirstsAscend(accepted: seq<nat>, selected: seq<nat>)
  {
    forall i, j :: 0 <= i < j < |selected| && IsFirst(accepted, selected[i]) && IsFirst(accepted, selected[j]) ==>
      selected[i] < selected[j]
  }

  /** Fresh queues stand in the list in the order of their first jobs. */
  ghost predicate FreshSorted(l: Line, accepted: seq<nat>, selected: seq<nat>)
    requires Formed(l)
  {
    forall i, j :: 0 <= i < j < |l.order| ==>
      IsFresh(accepted, selected, l.order[i]) ==> IsFresh(accepted, selected, l.order[j]) ==>
      l.queues[l.order[i]].jobs[0] < l.queues[l.order[j]].jobs[0]
  }

  /** Every first job selected so far came before the first jobs still waiting. */
  ghost predicate FreshLater(l: Line, accepted: seq<nat>, selected: seq<nat>)
    requires Formed(l)
  {
    forall j, id :: j in selected && IsFirst(accepted, j) && id in l.queues && IsFresh(accepted, selected, id) ==>
      j < l.queues[id].jobs[0]
  }

  ghost predicate Creation(l: Line, accepted: seq<nat>, selected: seq<nat>)
    requires Formed(l)
  {
    FirstsAscend(accepted, selected) && FreshSorted(l, accepted, selected) && FreshLater(l, accepted, selected)
  }

  lemma {:induction false} AcceptedAscend(accepted: seq<nat>, id: nat, i: nat, j: nat)
    requires i < j < |Accepted(accepted, id)|
    ensures Accepted(accepted, id)[i] < Accepted(accepted, id)[j]
  {
    var n := |accepted| - 1;
    var before := Accepted(accepted[..n], id);
    if j < |before| {
      AcceptedAscend(accepted[..n], id, i, j);
    } else {
      assert before[i] in before;
      AcceptedBelong(accepted[..n], id, before[i]);
    }
  }

  /** A first job is selected from a fresh stream. */
  lemma FirstIsFresh(l: Line, accepted: seq<nat>, selected: seq<nat>)
    requires Formed(l) && l.order != [] && InOrder(l, accepted, selected) && IsFirst(accepted, Chosen(l))
    ensures IsFresh(accepted, selected, l.order[0])
  {
    var h := l.order[0];
    var before, all := Picks(accepted, selected, h), Accepted(accepted, h);
    assert before + Waiting(l, h) == all;
    if before != [] {
      assert all[|before|] == Chosen(l) && all[|before|] in all && all[0] in all;
      AcceptedAscend(accepted, h, 0, |before|);
      AcceptedBelong(accepted, h, all[0]);
      AcceptedBelong(accepted, h, Chosen(l));
    }
  }

  /** Accepting another job changes neither who is first nor who is fresh. */
  lemma AcceptedMore(accepted: seq<nat>, selected: seq<nat>, id: nat, j: nat, k: nat)
    requires AllBelow(selected, |accepted|)
    ensures IsFresh(accepted + [id], selected, k) <==> IsFresh(accepted, selected, k)
    ensures j < |accepted| ==> (IsFirst(accepted + [id], j) <==> IsFirst(accepted, j))
  {
    PicksKept(accepted, [id], selected, k);
    if j < |accepted| {
      assert forall i :: 0 <= i <= j ==> (accepted + [id])[i] == accepted[i];
    }
  }

  /** Accepting a job: the first job of every queue that was there is the same. */
  lemma EnqueuedHeads(l: Line, accepted: seq<nat>, selected: seq<nat>, id: nat, k: nat)
    requires Formed(l) && InOrder(l, accepted, selected) && k in l.queues
    ensures var l' := Enqueued(l, id, |accepted|);
            Formed(l') && k in l'.queues && l'.queues[k].jobs[0] == l.queues[k].jobs[0] < |accepted|
  {
    EnqueuedFormed(l, id, |accepted|);
    assert l.queues[k].jobs[0] in Waiting(l, k);
    WaitingBelong(l, accepted, selected, k, l.queues[k].jobs[0]);
  }

  lemma EnqueuedPair(l: Line, accepted: seq<nat>, selected: seq<nat>, id: nat, i: nat, j: nat)
    requires Formed(l) && InOrder(l, accepted, selected) && FreshSorted(l, accepted, selected)
    requires var order' := Enqueued(l, id, |accepted|).order;
             && i < j < |order'| && IsFresh(accepted + [id], selected, order'[i]) && IsFresh(accepted + [id], selected, order'[j])
    ensures var l' := Enqueued(l, id, |accepted|);
            Formed(l') && l'.queues[l'.order[i]].jobs[0] < l'.queues[l'.order[j]].jobs[0]
  {
    EnqueuedFormed(l, id, |accepted|);
    var order' := Enqueued(l, id, |accepted|).order;
    assert order'[i] == l.order[i] && order'[i] in l.queues;
    AcceptedMore(accepted, selected, id, 0, order'[i]);
    AcceptedMore(accepted, selected, id, 0, order'[j]);
    EnqueuedHeads(l, accepted, selected, id, order'[i]);
    if j < |l.order| {
      assert order'[j] == l.order[j];
      EnqueuedHeads(l, accepted, selected, id, order'[j]);
    }
  }

  lemma EnqueuedLater(l: Line, accepted: seq<nat>, selected: seq<nat>, id: nat, j: nat, k: nat)
    requires Formed(l) && InOrder(l, accepted, selected) && FreshLater(l, accepted, selected)
    requires j in selected && IsFirst(accepted + [id], j) && k in Enqueued(l, id, |accepted|).queues
    requires IsFresh(accepted + [id], selected, k)
    ensures Formed(Enqueued(l, id, |accepted|)) && j < Enqueued(l, id, |accepted|).queues[k].jobs[0]
  {
    EnqueuedFormed(l, id, |accepted|);
    AcceptedMore(accepted, selected, id, j, k);
    if k in l.queues {
      EnqueuedHeads(l, accepted, selected, id, k);
    }
  }

  lemma EnqueuedAscend(l: Line, accepted: seq<nat>, selected: seq<nat>, id: nat)
    requires InOrder(l, accepted, selected) && FirstsAscend(accepted, selected)
    ensures FirstsAscend(accepted + [id], selected)
  {
    var accepted' := accepted + [id];
    assert AllBelow(selected, |accepted|);
    hide IsFirst, IsFresh, InOrder;
    forall i, j | 0 <= i < j < |selected| && IsFirst(accepted', selected[i]) && IsFirst(accepted', selected[j])
      ensures selected[i] < selected[j]
    {
      AcceptedMore(accepted, selected, id, selected[i], 0);
      AcceptedMore(accepted, selected, id, selected[j], 0);
    }
  }

  lemma EnqueuedSorted(l: Line, accepted: seq<nat>, selected: seq<nat>, id: nat)
    requires Formed(l) && InOrder(l, accepted, selected) && FreshSorted(l, accepted, selected)
    ensures var l' := Enqueued(l, id, |accepted|); Formed(l') && FreshSorted(l', accepted + [id], selected)
  {
    hide IsFresh, InOrder, Formed, Enqueued;
    EnqueuedFormed(l, id, |accepted|);
    var l', accepted' := Enqueued(l, id, |accepted|), accepted + [id];
    forall i, j | 0 <= i < j < |l'.order| && IsFresh(accepted', selected, l'.order[i]) && IsFresh(accepted', selected, l'.order[j])
      ensures HeadBefore(l', i, j)
    {
      EnqueuedPair(l, accepted, selected, id, i, j);
    }
    SortedByPairs(l', accepted', selected);
  }

  ghost predicate HeadBefore(l: Line, i: nat, j: nat)
    requires Formed(l) && i < |l.order| && j < |l.order|
  {
    l.queues[l.order[i]].jobs[0] < l.queues[l.order[j]].jobs[0]
  }

  lemma SortedByPairs(l: Line, accepted: seq<nat>, selected: seq<nat>)
    requires Formed(l)
    requires forall i: nat, j: nat :: i < j < |l.order| && IsFresh(accepted, selected, l.order[i]) && IsFresh(accepted, selected, l.order[j]) ==>
      HeadBefore(l, i, j)
    ensures FreshSorted(l, accepted, selected)
  {
    hide IsFresh;
    forall i, j | 0 <= i < j < |l.order| && IsFresh(accepted, selected, l.order[i]) && IsFresh(accepted, selected, l.order[j])
      ensures l.queues[l.order[i]].jobs[0] < l.queues[l.order[j]].jobs[0]
    {
      assert HeadBefore(l, i, j);
    }
  }

  lemma EnqueuedAllLater(l: Line, accepted: seq<nat>, selected: seq<nat>, id: nat)
    requires Formed(l) && InOrder(l, accepted, selected) && FreshLater(l, accepted, selected)
    ensures var l' := Enqueued(l, id, |accepted|); Formed(l') && FreshLater(l', accepted + [id], selected)
  {
    hide IsFirst, IsFresh, InOrder, Enqueued;
    EnqueuedFormed(l, id, |accepted|);
    var l', accepted' := Enqueued(l, id, |accepted|), accepted + [id];
    forall j, k | j in selected && IsFirst(accepted', j) && k in l'.queues && IsFresh(accepted', selected, k)
      ensures j < l'.queues[k].jobs[0]
    {
      EnqueuedLater(l, accepted, selected, id, j, k);
    }
  }

  lemma EnqueuedCreation(l: Line, accepted: seq<nat>, selected: seq<nat>, id: nat)
    requires Formed(l) && InOrder(l, accepted, selected) && Creation(l, accepted, selected)
    ensures var l' := Enqueued(l, id, |accepted|); Formed(l') && Creation(l', accepted + [id], selected)
  {
    hide InOrder, Enqueued, FirstsAscend, FreshSorted, FreshLater;
    EnqueuedAscend(l, accepted, selected, id);
    EnqueuedSorted(l, accepted, selected, id);
    EnqueuedAllLater(l, accepted, selected, id);
  }

  /** Selecting the head job: its stream is no longer fresh, the others are as they were. */
  lemma ServedFresh(l: Line, accepted: seq<nat>, selected: seq<nat>, id: nat)
    requires Formed(l) && l.order != [] && InOrder(l, accepted, selected)
    ensures IsFresh(accepted, selected + [Chosen(l)], id) <==> id != l.order[0] && IsFresh(accepted, selected, id)
    ensures Formed(Served(l))
    ensures id in Served(l).queues && id != l.order[0] ==> id in l.queues && Served(l).queues[id].jobs == l.queues[id].jobs
  {
    ServedFormed(l);
    var selected' := selected + [Chosen(l)];
    assert Chosen(l) in Waiting(l, l.order[0]);
    WaitingBelong(l, accepted, selected, l.order[0], Chosen(l));
    assert selected'[..|selected|] == selected;
  }

  lemma FormedAt(l: Line, i: nat)
    requires Formed(l) && i < |l.order|
    ensures l.order[i] in l.queues && l.queues[l.order[i]].jobs != [] && l.queues[l.order[i]].deficit <= SEND_QUANTUM
  {
  }

  lemma FreshPair(l: Line, accepted: seq<nat>, selected: seq<nat>, i: nat, j: nat)
    requires Formed(l) && FreshSorted(l, accepted, selected) && i < j < |l.order|
    requires IsFresh(accepted, selected, l.order[i]) && IsFresh(accepted, selected, l.order[j])
    ensures l.order[i] in l.queues && l.queues[l.order[i]].jobs != []
    ensures l.order[j] in l.queues && l.queues[l.order[j]].jobs != []
    ensures l.queues[l.order[i]].jobs[0] < l.queues[l.order[j]].jobs[0]
  {
  }

  lemma ServedPair(l: Line, l': Line, accepted: seq<nat>, selected: seq<nat>, i: nat, j: nat)
    requires Formed(l) && l.order != [] && InOrder(l, accepted, selected) && FreshSorted(l, accepted, selected)
    requires Formed(l') && l' == Served(l) && i < j < |l'.order|
    requires IsFresh(accepted, selected + [Chosen(l)], l'.order[i]) && IsFresh(accepted, selected + [Chosen(l)], l'.order[j])
    ensures l'.queues[l'.order[i]].jobs[0] < l'.queues[l'.order[j]].jobs[0]
  {
    hide InOrder, IsFresh, Formed, Served, FreshSorted, Shift;
    FormedAt(l', i);
    FormedAt(l', j);
    ServedFresh(l, accepted, selected, l'.order[i]);
    ServedFresh(l, accepted, selected, l'.order[j]);
    ServedPosition(l, i);
    ServedPosition(l, j);
    FreshPair(l, accepted, selected, i + Shift(l), j + Shift(l));
  }

  lemma ServedLater(l: Line, accepted: seq<nat>, selected: seq<nat>, j: nat, id: nat)
    requires Formed(l) && l.order != [] && InOrder(l, accepted, selected) && Creation(l, accepted, selected)
    requires j in selected || j == Chosen(l)
    requires IsFirst(accepted, j) && id in Served(l).queues && IsFresh(accepted, selected + [Chosen(l)], id)
    ensures Formed(Served(l)) && j < Served(l).queues[id].jobs[0]
  {
    ServedFresh(l, accepted, selected, id);
    if j !in selected {
      FirstIsFresh(l, accepted, selected);
      var i :| 0 <= i < |l.order| && l.order[i] == id;
    }
  }

  lemma ServedAscend(l: Line, accepted: seq<nat>, selected: seq<nat>)
    requires Formed(l) && l.order != [] && InOrder(l, accepted, selected) && Creation(l, accepted, selected)
    ensures FirstsAscend(accepted, selected + [Chosen(l)])
  {
    hide Served, IsFirst, InOrder, FreshSorted;
    var c, h := Chosen(l), l.order[0];
    var selected' := selected + [c];
    if IsFirst(accepted, c) {
      FirstIsFresh(l, accepted, selected);
      assert h in l.queues;
    }
    hide IsFresh, Chosen;
    forall i, j | 0 <= i < j < |selected'| && IsFirst(accepted, selected'[i]) && IsFirst(accepted, selected'[j])
      ensures selected'[i] < selected'[j]
    {
      assert selected'[i] == selected[i] && selected'[i] in selected;
    }
  }

  lemma ServedCreation(l: Line, accepted: seq<nat>, selected: seq<nat>)
    requires Formed(l) && l.order != [] && InOrder(l, accepted, selected) && Creation(l, accepted, selected)
    ensures Formed(Served(l)) && Creation(Served(l), accepted, selected + [Chosen(l)])
  {
    hide IsFirst, IsFresh, InOrder, FirstsAscend, Served, Chosen;
    ServedFormed(l);
    ServedAscend(l, accepted, selected);
    var l', selected' := Served(l), selected + [Chosen(l)];
    forall i, j | 0 <= i < j < |l'.order| && IsFresh(accepted, selected', l'.order[i]) && IsFresh(accepted, selected', l'.order[j])
      ensures l'.queues[l'.order[i]].jobs[0] < l'.queues[l'.order[j]].jobs[0]
    {
      ServedPair(l, l', accepted, selected, i, j);
    }
    forall j, id | j in selected' && IsFirst(accepted, j) && id in l'.queues && IsFresh(accepted, selected', id)
      ensures j < l'.queues[id].jobs[0]
    {
      ServedLater(l, accepted, selected, j, id);
    }
  }

  // ---- whole runs ----

  datatype Event = Accept(id: nat) | Select

  datatype History = History(line: Line, accepted: seq<nat>, selected: seq<nat>)

  const START: History := History(EMPTY, [], [])

  /** One accepted job, or one selection while anything waits. */
  ghost predicate Step(h: History, e: Event, h': History)
    requires Formed(h.line)
  {
    match e
    case Accept(id) => h' == History(Enqueued(h.line, id, |h.accepted|), h.accepted + [id], h.selected)
    case Select => h.line.order != [] && h' == History(Served(h.line), h.accepted, h.selected + [Chosen(h.line)])
  }

  ghost predicate Sound(h: History)
  {
    && Formed(h.line) && InOrder(h.line, h.accepted, h.selected) && Creation(h.line, h.accepted, h.selected)
  }

  lemma StepSound(h: History, e: Event, h': History)
    requires Sound(h) && Step(h, e, h')
    ensures Sound(h')
  {
    hide InOrder, Creation, Formed;
    match e
    case Accept(id) =>
      EnqueuedFormed(h.line, id, |h.accepted|);
      EnqueuedInOrder(h.line, h.accepted, h.selected, id);
      EnqueuedCreation(h.line, h.accepted, h.selected, id);
    case Select =>
      ServedInOrder(h.line, h.accepted, h.selected);
      ServedCreation(h.line, h.accepted, h.selected);
  }

  /** A run: each history follows from the one before it. */
  ghost predicate IsRun(run: seq<History>, events: seq<Event>)
  {
    && |run| == |events| + 1
    && forall i :: 0 <= i < |events| ==> Formed(run[i].line) && Step(run[i], events[i], run[i + 1])
  }

  lemma {:induction false} RunSound(run: seq<History>, events: seq<Event>, i: nat)
    requires IsRun(run, events) && i < |run| && Sound(run[0])
    ensures Sound(run[i])
  {
    hide Sound, Step;
    if i > 0 {
      RunSound(run, events, i - 1);
      StepSound(run[i - 1], events[i - 1], run[i]);
    }
  }

  lemma StartSound()
    ensures Sound(START)
  {
    forall id: nat
      ensures Picks([], [], id) + Waiting(EMPTY, id) == Accepted([], id)
    {
    }
  }

  /** Streams other than the circuit's own get their ids in ascending order... */
  ghost predicate BornAscending(accepted: seq<nat>, circuit: nat)
  {
    forall j, k :: 0 <= j < k < |accepted| && IsFirst(accepted, j) && IsFirst(accepted, k) ==>
      accepted[j] != circuit ==> accepted[k] != circuit ==> accepted[j] < accepted[k]
  }

  /** ... and start on the wire in that order. */
  ghost predicate StartAscending(accepted: seq<nat>, selected: seq<nat>, circuit: nat)
  {
    forall j, k :: 0 <= j < k < |selected| && IsFirst(accepted, selected[j]) && IsFirst(accepted, selected[k]) ==>
      accepted[selected[j]] != circuit ==> accepted[selected[k]] != circuit ==>
      accepted[selected[j]] < accepted[selected[k]]
  }

  /** However sends and selections interleave, the cells of a stream are selected in the
      order they were accepted, and the first cells of streams in the order the streams
      were created; so stream ids handed out in ascending order first appear on the wire
      in ascending order, whenever the circuit's own id, which is not handed out, is used. */
  lemma {:induction false} FreshInCreationOrder(run: seq<History>, events: seq<Event>, i: nat, circuit: nat)
    requires IsRun(run, events) && i < |run| && run[0] == START
    ensures var h := run[i];
            && Formed(h.line) && InOrder(h.line, h.accepted, h.selected)
            && FirstsAscend(h.accepted, h.selected)
            && (BornAscending(h.accepted, circuit) ==> StartAscending(h.accepted, h.selected, circuit))
  {
    StartSound();
    RunSound(run, events, i);
    hide IsFirst, Formed;
  }

  // ---- how long a queue waits ----

  /** Cells that may leave before the queue at position i is served. */
  ghost function Ahead(l: Line, i: nat): nat
    requires Formed(l) && i < |l.order|
  {
    if i == 0 then 0 else Turn(l.queues[l.order[0]]) + SEND_QUANTUM * (i - 1)
  }

  ghost predicate Serves(h: History, e: Event, id: nat)
  {
    e.Select? && h.line.order != [] && h.line.order[0] == id
  }

  /** A queue that moves up to the head begins a full turn. */
  lemma AfterHead(l: Line)
    requires Formed(l) && |l.order| > 1 && l.order[1] in l.queues
    ensures l.order[1] in Served(l).queues && Served(l).queues[l.order[1]].deficit == 0
  {
    assert l.order[1] != l.order[0];
  }

  /** While a queue has cells and turn left it stays in front; the last cell of its turn
      sends it behind all others; and no other queue changes. */
  lemma HeadKeepsTurn(l: Line)
    requires Formed(l) && l.order != []
    ensures Formed(Served(l))
    ensures var h := l.order[0];
      var q, l' := l.queues[h], Served(l);
      && (|q.jobs| == 1 ==> h !in l'.queues && l'.order == l.order[1..])
      && (|q.jobs| > 1 ==> h in l'.queues && l'.queues[h].jobs == q.jobs[1..])
      && (|q.jobs| > 1 && Turn(q) > 1 ==> l'.order == l.order && l'.queues[h].deficit == Turn(q) - 1)
      && (|q.jobs| > 1 && Turn(q) == 1 && |l.order| > 1 ==> l'.order == l.order[1..] + [h] && l'.queues[h].deficit == 0)
      && forall id :: id in l.queues && id != h ==> id in l'.queues && l'.queues[id] == l.queues[id]
  {
    ServedFormed(l);
  }

  /** The turn of the queue in front, of which `sent` cells have gone. */
  ghost predicate InTurn(l: Line, id: nat, sent: nat)
  {
    && Formed(l) && l.order != [] && l.order[0] == id && sent < 4
    && l.queues[id].deficit == if sent == 0 then 0 else 4 - sent
  }

  /** A queue that comes to the front has a turn of four cells: as long as it has any to
      send, the next four cells selected are its own, whatever is sent meanwhile. */
  lemma {:induction false} FullTurn(run: seq<History>, events: seq<Event>, n: nat, id: nat)
    requires IsRun(run, events) && n <= |events| && InTurn(run[0].line, id, 0)
    requires forall k :: 0 <= k <= n ==> id in run[k].line.queues
    requires |run[0].selected| <= |run[n].selected| < |run[0].selected| + 4
    ensures InTurn(run[n].line, id, |run[n].selected| - |run[0].selected|)
    ensures forall k :: 0 <= k < n && events[k].Select? ==> Serves(run[k], events[k], id)
  {
    hide InTurn, Serves, IsRun, Step, Formed;
    if n > 0 {
      SelectedGrows(run, events, n - 1);
      FullTurn(run, events, n - 1, id);
      TurnStep(run[n - 1], events[n - 1], run[n], id, |run[n - 1].selected| - |run[0].selected|);
    }
  }

  lemma {:induction false} SelectedGrows(run: seq<History>, events: seq<Event>, n: nat)
    requires IsRun(run, events) && n < |events|
    ensures |run| == |events| + 1 && Formed(run[n].line) && Step(run[n], events[n], run[n + 1])
    ensures |run[0].selected| <= |run[n].selected|
    ensures |run[n + 1].selected| == |run[n].selected| + if events[n].Select? then 1 else 0
  {
    hide Formed, Served, Enqueued, Chosen;
    if n > 0 {
      SelectedGrows(run, events, n - 1);
    }
  }

  lemma TurnStep(h: History, e: Event, h': History, id: nat, sent: nat)
    requires InTurn(h.line, id, sent) && Step(h, e, h') && id in h'.line.queues
    requires e.Select? ==> sent < 3
    ensures InTurn(h'.line, id, if e.Select? then sent + 1 else sent)
    ensures e.Select? ==> Serves(h, e, id)
  {
    match e
    case Accept(other) => EnqueuedFormed(h.line, other, |h.accepted|);
    case Select => HeadKeepsTurn(h.line);
  }

  lemma AheadServed(l: Line, i: nat) returns (i': nat)
    requires Formed(l) && 0 < i < |l.order|
    ensures Formed(Served(l)) && i' < |Served(l).order| && Served(l).order[i'] == l.order[i]
    ensures Ahead(Served(l), i') + 1 <= Ahead(l, i)
  {
    hide Served, Formed, Shift;
    FormedAt(l, 0);
    ServedFormed(l);
    ServedLength(l);
    i' := i - Shift(l);
    ServedPosition(l, i');
    ServedPosition(l, 0);
    FormedAt(Served(l), 0);
    if Shift(l) == 0 {
      ServedStays(l);
    } else if i' > 0 {
      FormedAt(l, 1);
      AfterHead(l);
    }
  }

  lemma AheadStep(h: History, e: Event, h': History, i: nat) returns (i': nat)
    requires Formed(h.line) && Step(h, e, h') && i < |h.line.order|
    requires !Serves(h, e, h.line.order[i])
    ensures Formed(h'.line) && i' < |h'.line.order| && h'.line.order[i'] == h.line.order[i]
    ensures Ahead(h'.line, i') + |h'.selected| <= Ahead(h.line, i) + |h.selected|
  {
    match e
    case Accept(id) =>
      EnqueuedFormed(h.line, id, |h.accepted|);
      i' := i;
    case Select =>
      i' := AheadServed(h.line, i);
  }

  /** As long as the stream at position i of the list is not served, at most four cells
      are selected for each queue ahead of it, whatever else is sent meanwhile. */
  lemma {:induction false} BoundedWait(run: seq<History>, events: seq<Event>, i: nat)
    requires IsRun(run, events) && Formed(run[0].line) && i < |run[0].line.order|
    requires forall k :: 0 <= k < |events| ==> !Serves(run[k], events[k], run[0].line.order[i])
    ensures |run[|events|].selected| - |run[0].selected| <= SEND_QUANTUM * i
  {
    var _ := AheadRun(run, events, i, |events|);
  }

  lemma {:induction false} AheadRun(run: seq<History>, events: seq<Event>, i: nat, n: nat) returns (i': nat)
    requires IsRun(run, events) && Formed(run[0].line) && i < |run[0].line.order| && n <= |events|
    requires forall k :: 0 <= k < |events| ==> !Serves(run[k], events[k], run[0].line.order[i])
    ensures Formed(run[n].line) && i' < |run[n].line.order| && run[n].line.order[i'] == run[0].line.order[i]
    ensures Ahead(run[n].line, i') + |run[n].selected| <= Ahead(run[0].line, i) + |run[0].selected|
  {
    hide Ahead, Formed, Step, Serves;
    i' := i;
    if n > 0 {
      i' := AheadRun(run, events, i, n - 1);
      i' := AheadStep(run[n - 1], events[n - 1], run[n], i');
    }
  }
}
