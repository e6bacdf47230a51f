/**
 The reorder buffer of a circuit link: authenticated cells may arrive in any order inside
 a window; payloads leave in counter order.
 */
module OrderedReceiver {
  import opened Limits
  import opened Options
  import opened Frames

  const MAX_BUFFERED_PAYLOAD: nat := 1146

  type Payload = seq<byte>

  /** What a call of the clock callback can do: answer a valid time, fail (or answer
      nonsense), or destroy the receiver that is calling it. */
  datatype Clock = Time(at: nat) | Broken | Destroys

  datatype Failure = Invalid | Exhausted | Replay | Gap

  datatype Outcome = Delivered(payloads: seq<Payload>) | Failed(why: Failure)

  /** Buffered counters lie in [lo, lo + window) and do not pass the maximum. */
  ghost predicate Within(buffer: map<nat, Payload>, lo: nat, hi: nat, maximum: nat)
  {
    forall c :: c in buffer ==> lo <= c < hi && c <= maximum
  }

  /** What is buffered is what was pushed. */
  ghost predicate Known(buffer: map<nat, Payload>, pushed: map<nat, Payload>)
  {
    forall c :: c in buffer ==> c in pushed && pushed[c] == buffer[c]
  }

  /** Every counter from lo up to hi was pushed. */
  ghost predicate Whole(pushed: map<nat, Payload>, lo: nat, hi: nat)
  {
    lo <= hi && forall c :: lo <= c < hi ==> c in pushed
  }

  /** Whatever was pushed lies in [lo, hi) or is still buffered. */
  ghost predicate NoneLost(pushed: map<nat, Payload>, buffer: map<nat, Payload>, lo: nat, hi: nat)
  {
    forall c :: c in pushed ==> lo <= c < hi || c in buffer
  }

  /** The payloads of counters lo, lo + 1, ..., hi - 1. */
  ghost function Run(pushed: map<nat, Payload>, lo: nat, hi: nat): seq<Payload>
    requires Whole(pushed, lo, hi)
    decreases hi
  {
    if lo == hi then [] else Run(pushed, lo, hi - 1) + [pushed[hi - 1]]
  }

  lemma {:induction false} RunKept(pushed: map<nat, Payload>, pushed': map<nat, Payload>, lo: nat, hi: nat)
    requires Whole(pushed, lo, hi) && forall c :: lo <= c < hi ==> c in pushed' && pushed'[c] == pushed[c]
    ensures Whole(pushed', lo, hi) && Run(pushed', lo, hi) == Run(pushed, lo, hi)
    decreases hi
  {
    if lo < hi {
      RunKept(pushed, pushed', lo, hi - 1);
    }
  }

  /** Position k of a run holds the payload of counter lo + k, and no counter appears twice. */
  lemma {:induction false} RunAt(pushed: map<nat, Payload>, lo: nat, hi: nat, k: nat)
    requires Whole(pushed, lo, hi) && lo + k < hi
    ensures |Run(pushed, lo, hi)| == hi - lo && Run(pushed, lo, hi)[k] == pushed[lo + k]
    decreases hi
  {
    if lo + k < hi - 1 {
      RunAt(pushed, lo, hi - 1, k);
    } else if lo < hi - 1 {
      RunAt(pushed, lo, hi - 1, 0);
    }
  }

  /** Whatever the order of arrival, once the counters lo up to n have all been accepted
      and none beyond, every one of them has been handed out. */
  lemma Complete(buffer: map<nat, Payload>, pushed: map<nat, Payload>, lo: nat, next: nat, hi: nat, maximum: nat, n: nat)
    requires Within(buffer, next + 1, hi, maximum) && Known(buffer, pushed) && Whole(pushed, lo, next)
    requires NoneLost(pushed, buffer, lo, next)
    requires lo <= n && forall c :: c in pushed <==> lo <= c < n
    ensures next == n && buffer == map[]
  {
    assert next !in buffer && next !in pushed;
    assert next > lo ==> next - 1 in pushed;
    assert forall c :: c !in buffer;
  }

  /** Buffering a counter beyond the next one. */
  lemma Kept(buffer: map<nat, Payload>, pushed: map<nat, Payload>, lo: nat, next: nat, hi: nat, maximum: nat,
             counter: nat, payload: Payload)
    requires Within(buffer, next + 1, hi, maximum) && Known(buffer, pushed) && Whole(pushed, lo, next)
    requires NoneLost(pushed, buffer, lo, next)
    requires next < counter <= maximum && counter < hi
    ensures var buffer', pushed' := buffer[counter := payload], pushed[counter := payload];
            && Within(buffer', next + 1, hi, maximum) && Known(buffer', pushed') && Whole(pushed', lo, next)
            && NoneLost(pushed', buffer', lo, next) && buffer' != map[]
            && Run(pushed', lo, next) == Run(pushed, lo, next)
  {
    RunKept(pushed, pushed[counter := payload], lo, next);
    assert counter in buffer[counter := payload];
  }

  /** Accepting the next counter itself. */
  lemma Placed(buffer: map<nat, Payload>, pushed: map<nat, Payload>, lo: nat, next: nat, hi: nat, maximum: nat,
               payload: Payload)
    requires Within(buffer, next + 1, hi, maximum) && Known(buffer, pushed) && Whole(pushed, lo, next)
    requires NoneLost(pushed, buffer, lo, next)
    ensures var pushed' := pushed[next := payload];
            && Within(buffer, next + 1, hi + 1, maximum) && Known(buffer, pushed') && Whole(pushed', lo, next + 1)
            && NoneLost(pushed', buffer, lo, next + 1)
            && Run(pushed', lo, next + 1) == Run(pushed, lo, next) + [payload]
            && (next == maximum ==> buffer == map[])
  {
    RunKept(pushed, pushed[next := payload], lo, next);
    if next == maximum {
      assert forall c :: c !in buffer;
    }
  }

  /** Taking the next counter out of the buffer. */
  lemma Taken(buffer: map<nat, Payload>, pushed: map<nat, Payload>, lo: nat, next: nat, hi: nat, maximum: nat)
    requires Within(buffer, next, hi, maximum) && Known(buffer, pushed) && Whole(pushed, lo, next)
    requires NoneLost(pushed, buffer, lo, next) && next in buffer
    ensures var buffer' := buffer - {next};
            && Within(buffer', next + 1, hi + 1, maximum) && Known(buffer', pushed) && Whole(pushed, lo, next + 1)
            && NoneLost(pushed, buffer', lo, next + 1)
            && Run(pushed, lo, next + 1) == Run(pushed, lo, next) + [buffer[next]]
            && (next == maximum ==> buffer' == map[])
  {
    if next == maximum {
      assert forall c :: c !in buffer - {next};
    }
  }

  /** With the next counter missing, the buffer lies strictly beyond it. */
  lemma Beyond(buffer: map<nat, Payload>, next: nat, hi: nat, maximum: nat)
    requires Within(buffer, next, hi, maximum) && next !in buffer && next <= maximum
    ensures Within(buffer, next + 1, hi, maximum)
  {
  }

  class Receiver {
    const window: nat
    const gapTimeout: nat
    const initial: nat
    const maximum: nat
    var next: nat
    var buffer: map<nat, Payload>
    var gapStartedAt: Option<nat>
    var lastObservedAt: Option<nat>
    var closed: bool

    /** History: the payload accepted for each counter, and all that was handed out. */
    ghost var pushed: map<nat, Payload>
    ghost var delivered: seq<Payload>
    /** The counter after the last one handed out. */
    ghost var frontier: nat
    ghost var exhausted: bool
    ghost var destroyed: bool

    /** Open, closed or destroyed, what was handed out is exactly the payloads of the
        counters from the first one up to the frontier, in order. */
    ghost predicate Valid()
      reads this
    {
      && Whole(pushed, initial, frontier) && delivered == Run(pushed, initial, frontier)
      && 1 <= window <= MAX_WINDOW && initial <= maximum <= MAX_COUNTER
      && (closed ==> buffer == map[] && Timeless())
      && (destroyed ==> closed)
      && (!destroyed ==> Ordered())
    }

    /** The frontier is the next counter, or just beyond the maximum; while open, every
        accepted payload was handed out or is buffered inside the window; and a gap clock
        runs exactly when something is buffered. */
    ghost predicate Ordered()
      reads this
    {
      && initial <= next <= maximum
      && (exhausted ==> closed && next == maximum)
      && Within(buffer, next + 1, next + window, maximum)
      && Known(buffer, pushed)
      && frontier == (if exhausted then maximum + 1 else next)
      && (!closed ==> NoneLost(pushed, buffer, initial, next))
      && (gapStartedAt.Some? <==> buffer != map[])
      && (lastObservedAt.Some? <==> gapStartedAt.Some?)
    }

    /** The state in the middle of handing out a run: `next` may itself be buffered. */
    ghost predicate Draining()
      reads this
    {
      && 1 <= window <= MAX_WINDOW && maximum <= MAX_COUNTER
      && !closed && !destroyed && !exhausted && initial <= next <= maximum
      && Within(buffer, next, next + window, maximum)
      && Known(buffer, pushed)
      && frontier == next && Whole(pushed, initial, next)
      && NoneLost(pushed, buffer, initial, next)
      && delivered == Run(pushed, initial, next)
      && (lastObservedAt.Some? <==> gapStartedAt.Some?)
      && (gapStartedAt.None? ==> buffer == map[])
    }

    constructor (window: nat, gapTimeout: nat, initial: nat, maximum: nat)
      requires 1 <= window <= MAX_WINDOW && initial <= maximum <= MAX_COUNTER
      ensures Valid() && !closed && next == initial && buffer == map[] && delivered == [] && pushed == map[]
      ensures this.initial == initial && this.maximum == maximum && this.window == window
    {
      this.window, this.gapTimeout, this.initial, this.maximum := window, gapTimeout, initial, maximum;
      next, buffer, gapStartedAt, lastObservedAt, closed := initial, map[], None, None, false;
      pushed, delivered, frontier, exhausted, destroyed := map[], [], initial, false, false;
    }

    /** What a refused push leaves behind: nothing was handed out, and either nothing else
        changed or the receiver is closed for good. */
    twostate predicate OnlyClosed()
      reads this
    {
      && delivered == old(delivered) && pushed == old(pushed) && frontier == old(frontier)
      && (closed || (next == old(next) && buffer == old(buffer) && gapStartedAt == old(gapStartedAt)))
    }

    /** No gap is open, and no time is kept. */
    predicate Timeless()
      reads this
    {
      gapStartedAt.None? && lastObservedAt.None?
    }

    /** `#failGap` and `#failInvalid`. */
    method Close()
      requires Valid()
      modifies this
      ensures Valid() && closed && buffer == map[] && OnlyClosed() && Timeless()
      ensures destroyed == old(destroyed) && exhausted == old(exhausted)
    {
      buffer, gapStartedAt, lastObservedAt, closed := map[], None, None, true;
    }

    /** `destroy`. */
    method Destroy()
      requires Valid()
      modifies this
      ensures Valid() && closed && destroyed && buffer == map[] && OnlyClosed() && Timeless()
    {
      buffer, gapStartedAt, lastObservedAt, closed := map[], None, None, true;
      next := 0;
      destroyed := true;
    }

    /** Either no gap is open, or the clock went forward and the gap has not timed out. */
    predicate GapHolds(clock: Clock)
      reads this
    {
      gapStartedAt.None? ||
      (clock.Time? && lastObservedAt.Some? && lastObservedAt.value <= clock.at && clock.at - gapStartedAt.value < gapTimeout)
    }

    /** A counter beyond the next one that may be kept. */
    predicate MayBuffer(counter: nat, payload: Payload, clock: Clock)
      reads this
    {
      && counter > next && counter !in buffer
      && counter - next < window && gapTimeout > 0 && |payload| <= MAX_BUFFERED_PAYLOAD
      && (gapStartedAt.Some? || clock.Time?)
    }

    /** `#expireAt(#readNow())` while a gap is open: `None` means the gap may stay open. */
    method Expire(clock: Clock) returns (r: Option<Failure>)
      requires Valid() && !closed && gapStartedAt.Some?
      modifies this
      ensures Valid() && OnlyClosed()
      ensures r.None? ==> !closed && exhausted == old(exhausted) && destroyed == old(destroyed)
      ensures r.Some? ==> closed && Timeless()
      ensures r.None? <==>
        clock.Time? && old(lastObservedAt).value <= clock.at && clock.at - old(gapStartedAt).value < gapTimeout
      ensures r.None? ==> gapStartedAt == old(gapStartedAt) && lastObservedAt == Some(clock.at)
      ensures r.None? <==> old(GapHolds(clock))
      ensures r != Some(Replay)
    {
      match clock
      case Broken =>
        Close();
        r := Some(Invalid);
      case Destroys =>
        Destroy();
        r := Some(Exhausted);
      case Time(at) =>
        if at < lastObservedAt.value {
          Close();
          return Some(Invalid);
        }
        lastObservedAt := Some(at);
        if at - gapStartedAt.value >= gapTimeout {
          Close();
          return Some(Gap);
        }
        r := None;
    }

    /** A cell beyond the next one is kept, if the window, the clock and its size allow. */
    method Buffer(counter: nat, payload: Payload, clock: Clock) returns (r: Outcome)
      requires Valid() && !closed && next < counter <= maximum && counter !in buffer
      modifies this
      ensures Valid()
      ensures r.Failed? ==> OnlyClosed()
      ensures r.Delivered? ==>
        && r.payloads == [] && !closed && next == old(next) && delivered == old(delivered)
        && buffer == old(buffer)[counter := payload] && pushed == old(pushed)[counter := payload]
      ensures r.Delivered? <==> old(MayBuffer(counter, payload, clock))
      ensures r.Failed? && !closed ==> lastObservedAt == old(lastObservedAt)
      ensures r.Delivered? && old(gapStartedAt).None? ==>
        clock.Time? && gapStartedAt == Some(clock.at) && lastObservedAt == Some(clock.at)
      ensures r.Delivered? && old(gapStartedAt).Some? ==>
        gapStartedAt == old(gapStartedAt) && lastObservedAt == old(lastObservedAt)
      ensures r != Failed(Replay)
    {
      hide Within, Known, Whole, NoneLost, Run;
      if counter - next >= window || gapTimeout == 0 {
        Close();
        return Failed(Gap);
      }
      var startedAt := gapStartedAt;
      if startedAt.None? {
        match clock
        case Broken => return Failed(Invalid);
        case Destroys => Destroy(); return Failed(Exhausted);
        case Time(at) => startedAt := Some(at);
      }
      if |payload| > MAX_BUFFERED_PAYLOAD {
        Close();
        return Failed(Invalid);
      }
      Kept(buffer, pushed, initial, next, next + window, maximum, counter, payload);
      buffer := buffer[counter := payload];
      pushed := pushed[counter := payload];
      if gapStartedAt.None? {
        gapStartedAt, lastObservedAt := startedAt, startedAt;
      }
      r := Delivered([]);
    }

    /** `#closeExhausted`: the last counter of all was handed out. */
    method CloseExhausted()
      requires 1 <= window <= MAX_WINDOW && initial <= maximum <= MAX_COUNTER && next == maximum && frontier == maximum + 1
      requires !destroyed && buffer == map[] && Whole(pushed, initial, maximum + 1)
      requires delivered == Run(pushed, initial, maximum + 1)
      modifies this
      ensures Valid() && closed && exhausted && !destroyed && buffer == map[]
      ensures delivered == old(delivered) && pushed == old(pushed) && frontier == old(frontier)
    {
      buffer, gapStartedAt, lastObservedAt, closed, exhausted := map[], None, None, true, true;
    }

    /** One round of the drain: hands out the buffered next cell. */
    method TakeNext() returns (taken: Payload)
      requires Draining() && next in buffer
      modifies this
      ensures taken == old(buffer)[old(next)] && delivered == old(delivered) + [taken] && pushed == old(pushed)
      ensures buffer == old(buffer) - {old(next)} && frontier == old(next) + 1
      ensures !closed ==> gapStartedAt == old(gapStartedAt) && lastObservedAt == old(lastObservedAt)
      ensures if old(next) == maximum then Valid() && closed && exhausted && !destroyed
              else Draining() && next == old(next) + 1
    {
      hide Within, Known, Whole, NoneLost, Run;
      Taken(buffer, pushed, initial, next, next + window, maximum);
      taken := buffer[next];
      buffer := buffer - {next};
      delivered, frontier := delivered + [taken], next + 1;
      if next == maximum {
        CloseExhausted();
      } else {
        next := next + 1;
      }
    }

    /** The next cell arrives and is handed out. */
    method PlaceNext(payload: Payload)
      requires Valid() && !closed
      modifies this
      ensures delivered == old(delivered) + [payload] && pushed == old(pushed)[old(next) := payload]
      ensures buffer == old(buffer) && frontier == old(next) + 1
      ensures !closed ==> gapStartedAt == old(gapStartedAt) && lastObservedAt == old(lastObservedAt)
      ensures if old(next) == maximum then Valid() && closed && exhausted && !destroyed
              else Draining() && next == old(next) + 1
    {
      hide Within, Known, Whole, NoneLost, Run;
      Placed(buffer, pushed, initial, next, next + window, maximum, payload);
      pushed := pushed[next := payload];
      delivered, frontier := delivered + [payload], next + 1;
      if next == maximum {
        CloseExhausted();
      } else {
        next := next + 1;
      }
    }

    /** The next cell is handed out together with everything buffered right behind it;
        reaching the maximum counter leaves no buffered payload undelivered. */
    method Deliver(payload: Payload) returns (payloads: seq<Payload>)
      requires Valid() && !closed
      modifies this
      ensures Valid() && !destroyed && (closed ==> exhausted)
      ensures delivered == old(delivered) + payloads && payloads != [] && payloads[0] == payload
      ensures buffer != map[] ==> gapStartedAt == old(gapStartedAt) && lastObservedAt == old(lastObservedAt)
      ensures buffer == map[] ==> Timeless()
      ensures pushed == old(pushed)[old(next) := payload]
      ensures !closed ==> old(next) < next && next !in buffer
      ensures forall c :: c in old(buffer) ==> c in buffer || c < frontier
    {
      hide Within, Known, Whole, NoneLost, Run;
      ghost var was := next;
      PlaceNext(payload);
      payloads := [payload];
      if closed {
        return;
      }
      while next in buffer
        invariant Draining() && was < next
        invariant forall c :: c in old(buffer) ==> c in buffer || c < next
        invariant delivered == old(delivered) + payloads && payloads != [] && payloads[0] == payload
        invariant gapStartedAt == old(gapStartedAt) && lastObservedAt == old(lastObservedAt)
        invariant pushed == old(pushed)[was := payload]
        decreases maximum - next
      {
        var taken := TakeNext();
        payloads := payloads + [taken];
        if closed {
          return;
        }
      }
      Beyond(buffer, next, next + window, maximum);
      if buffer == map[] {
        gapStartedAt, lastObservedAt := None, None;
      }
    }

    /** `pushAuthenticated`.  `expiry` and `start` are what the clock does if it is asked
        about an open gap and about the start of a new one.  A counter is accepted exactly
        when it is the next one or may be buffered, and an open gap holds; a replay closes
        nothing. */
    method Push(counter: nat, payload: Payload, expiry: Clock, start: Clock) returns (r: Outcome)
      requires Valid()
      modifies this
      ensures Valid()
      ensures r.Delivered? ==> counter !in old(pushed) && pushed == old(pushed)[counter := payload]
      ensures r.Delivered? ==> delivered == old(delivered) + r.payloads && !destroyed
      ensures r.Failed? ==> OnlyClosed()
      ensures r.Delivered? ==> (r.payloads == [] <==> counter > old(next))
      ensures counter > maximum ==> r == Failed(Invalid)
      ensures counter <= maximum && old(closed) ==> r == Failed(Exhausted)
      ensures r.Delivered? <==>
        && counter <= maximum && !old(closed) && old(GapHolds(expiry))
        && (counter == old(next) || old(MayBuffer(counter, payload, start)))
      ensures r == Failed(Replay) <==>
        && counter <= maximum && !old(closed) && old(GapHolds(expiry))
        && (counter < old(next) || counter in old(buffer))
      ensures counter <= maximum && !old(closed) && old(buffer) != map[] ==>
        (r.Delivered? || r == Failed(Replay) <==>
           && expiry.Time? && old(lastObservedAt).value <= expiry.at < old(gapStartedAt).value + gapTimeout
           && (counter <= old(next) || counter in old(buffer)
               || (counter < old(next) + window && |payload| <= MAX_BUFFERED_PAYLOAD && gapTimeout > 0)))
      ensures counter <= maximum && !old(closed) && old(buffer) == map[] ==>
        (r.Delivered? || r == Failed(Replay) <==>
           || counter <= old(next)
           || (counter < old(next) + window && |payload| <= MAX_BUFFERED_PAYLOAD && gapTimeout > 0 && start.Time?))
      ensures !closed && buffer != map[] && old(buffer) == map[] ==>
        start.Time? && gapStartedAt == Some(start.at) && lastObservedAt == Some(start.at)
      ensures !closed && buffer != map[] && old(buffer) != map[] && counter <= maximum ==>
        expiry.Time? && gapStartedAt == old(gapStartedAt) && lastObservedAt == Some(expiry.at)
      ensures buffer == map[] ==> Timeless()
      ensures counter > maximum || old(closed) ==> unchanged(this)
      ensures r.Delivered? && counter == old(next) ==> r.payloads[0] == payload
      ensures r == Failed(Replay) ==> !closed && next == old(next) && buffer == old(buffer)
      ensures r.Delivered? && counter > old(next) ==>
        !closed && next == old(next) && buffer == old(buffer)[counter := payload]
      ensures r.Delivered? && counter == old(next) ==>
        && (closed ==> exhausted) && (!closed ==> old(next) < next)
        && forall c :: c in old(buffer) ==> c in buffer || c < frontier
    {
      hide Known, Whole, Run;
      if counter > maximum {
        return Failed(Invalid);
      }
      if closed {
        return Failed(Exhausted);
      }
      if gapStartedAt.Some? {
        var expired := Expire(expiry);
        if expired.Some? {
          return Failed(expired.value);
        }
      }
      if counter < next || counter in buffer {
        return Failed(Replay);
      }
      if counter > next {
        r := Buffer(counter, payload, start);
      } else {
        var payloads := Deliver(payload);
        r := Delivered(payloads);
      }
    }

    /** A gap that the missing cell fills less than the timeout after the cell behind it
        opened it, on a clock that does not run backwards, is delivered whole. */
    method OpenAndFill(missing: Payload, behind: Payload, at: nat, later: nat) returns (r: Outcome)
      requires Valid() && !closed && buffer == map[] && next < maximum && window > 1
      requires |behind| <= MAX_BUFFERED_PAYLOAD && at <= later < at + gapTimeout
      modifies this
      ensures Valid() && r == Delivered([missing, behind]) && delivered == old(delivered) + [missing, behind]
    {
      ghost var was := pushed;
      var _ := Push(next + 1, behind, Time(at), Time(at));
      r := Push(next, missing, Time(later), Time(later));
      Filled(was, initial, old(next), missing, behind, frontier);
      assert r.payloads == delivered[|old(delivered)|..] == [missing, behind];
    }
  }

  /** What has been handed out once the cell behind a gap and then the missing one came. */
  lemma Filled(pushed: map<nat, Payload>, lo: nat, next: nat, missing: Payload, behind: Payload, frontier: nat)
    requires Whole(pushed, lo, next) && forall c :: c in pushed ==> lo <= c < next
    requires Whole(pushed[next + 1 := behind][next := missing], lo, frontier) && next + 2 <= frontier
    ensures frontier == next + 2
    ensures Run(pushed[next + 1 := behind][next := missing], lo, frontier) == Run(pushed, lo, next) + [missing, behind]
  {
    var all := pushed[next + 1 := behind][next := missing];
    assert next + 2 !in all;
    RunKept(pushed, all, lo, next);
    assert Run(all, lo, next + 1) == Run(all, lo, next) + [missing];
    assert Run(all, lo, next + 2) == Run(all, lo, next + 1) + [behind];
  }
}
