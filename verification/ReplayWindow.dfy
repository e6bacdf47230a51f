/**
 The sliding bitmap that guards datagrams against replay, as a refinement of a plain set
 of accepted counters.
 */
module ReplayWindow {
  import opened Limits
  import opened Options
  import opened Bits

  datatype Verdict = Accepted | Replay | Exhausted | Invalid

  /** The lowest counter the window still covers. */
  function FloorOf(highest: Option<nat>, window: nat): nat {
    if highest.None? || highest.value < window then 0 else highest.value - window + 1
  }

  /** Bit i of the bitmap says whether highest - i was accepted; nothing is set outside the
      window. */
  ghost predicate Mirrors(bitmap: nat, window: nat, highest: nat, accepted: set<nat>) {
    forall i: nat :: Bit(bitmap, i) <==> i < window && i <= highest && highest - i in accepted
  }

  ghost predicate IsHighest(h: nat, accepted: set<nat>) {
    h in accepted && forall c :: c in accepted ==> c <= h
  }

  // ----------------------------------------------------------- the three bitmap updates

  lemma FirstMirrors(window: nat, h: nat)
    requires window >= 1
    ensures Mirrors(1, window, h, {h})
  {
    forall i: nat ensures Bit(1, i) <==> i < window && i <= h && h - i in {h} {
      BitOfOne(i);
    }
  }

  /** A counter beyond the highest shifts the window. */
  lemma ShiftMirrors(bitmap: nat, window: nat, h: nat, accepted: set<nat>, c: nat)
    requires window >= 1 && Mirrors(bitmap, window, h, accepted) && IsHighest(h, accepted) && c > h
    ensures Shl(1, window) >= 1
    ensures var shift := c - h;
      Mirrors(if shift >= window then 1 else And(Or(Shl(bitmap, shift), 1), Shl(1, window) - 1),
              window, c, accepted + {c})
  {
    ShlPositive(window);
    var shift := c - h;
    if shift >= window {
      forall i: nat ensures Bit(1, i) <==> i < window && i <= c && c - i in accepted + {c} {
        BitOfOne(i);
      }
    } else {
      var next := And(Or(Shl(bitmap, shift), 1), Shl(1, window) - 1);
      forall i: nat ensures Bit(next, i) <==> i < window && i <= c && c - i in accepted + {c} {
        BitOfAnd(Or(Shl(bitmap, shift), 1), Shl(1, window) - 1, i);
        BitOfMask(window, i);
        BitOfOr(Shl(bitmap, shift), 1, i);
        BitOfOne(i);
        BitOfShl(bitmap, shift, i);
        if i >= shift {
          assert Bit(bitmap, i - shift) <==> i - shift < window && i - shift <= h && h - (i - shift) in accepted;
        }
      }
    }
  }

  /** A counter inside the window sets its own bit. */
  lemma SetMirrors(bitmap: nat, window: nat, h: nat, accepted: set<nat>, c: nat)
    requires Mirrors(bitmap, window, h, accepted) && c <= h && h - c < window
    ensures And(bitmap, Shl(1, h - c)) != 0 <==> c in accepted
    ensures Mirrors(Or(bitmap, Shl(1, h - c)), window, h, accepted + {c})
  {
    TestBit(bitmap, h - c);
    var next := Or(bitmap, Shl(1, h - c));
    forall i: nat ensures Bit(next, i) <==> i < window && i <= h && h - i in accepted + {c} {
      BitOfOr(bitmap, Shl(1, h - c), i);
      BitOfShl(1, h - c, i);
      if i >= h - c {
        BitOfOne(i - (h - c));
      }
    }
  }

  // --------------------------------------------------------------- counting the window

  /** The accepted counters among highest, highest - 1, ..., highest - n + 1. */
  ghost function Recent(accepted: set<nat>, h: nat, n: nat): set<nat> {
    set c | c in accepted && c <= h && h - c < n
  }

  lemma {:induction false} RecentCount(bitmap: nat, window: nat, h: nat, accepted: set<nat>, n: nat)
    requires Mirrors(bitmap, window, h, accepted) && n <= window
    ensures |Recent(accepted, h, n)| == OnesBelow(bitmap, n)
    decreases n
  {
    if n > 0 {
      RecentCount(bitmap, window, h, accepted, n - 1);
      var last: int := h - (n - 1);
      var prev := Recent(accepted, h, n - 1);
      if last >= 0 && last in accepted {
        assert Recent(accepted, h, n) == prev + {last};
        assert last !in prev;
      } else {
        assert Recent(accepted, h, n) == prev;
      }
      assert Bit(bitmap, n - 1) <==> last >= 0 && last in accepted;
    } else {
      assert Recent(accepted, h, 0) == {};
    }
  }

  class DatagramReplayWindow {
    const window: nat
    const mask: nat
    const maximum: nat
    var highest: Option<nat>
    var bitmap: nat
    var closed: bool
    ghost var accepted: set<nat>
    ghost var destroyed: bool

    ghost predicate Valid()
      reads this
    {
      && 1 <= window <= MAX_WINDOW && maximum <= MAX_COUNTER && Shl(1, window) >= 1 && mask == Shl(1, window) - 1
      && (destroyed ==> closed && highest.None? && bitmap == 0)
      && (!destroyed ==>
            && (highest.None? ==> accepted == {} && bitmap == 0 && !closed)
            && (highest.Some? ==>
                  && IsHighest(highest.value, accepted) && highest.value <= maximum
                  && Mirrors(bitmap, window, highest.value, accepted)
                  && (closed <==> highest.value == maximum)))
    }

    constructor (window: nat, maximum: nat)
      requires 1 <= window <= MAX_WINDOW && maximum <= MAX_COUNTER
      ensures Valid() && accepted == {} && !closed && !destroyed
      ensures this.window == window && this.maximum == maximum
    {
      ShlPositive(window);
      this.window, this.maximum := window, maximum;
      mask := Shl(1, window) - 1;
      highest, bitmap, closed := None, 0, false;
      accepted, destroyed := {}, false;
    }

    function Floor(): nat
      reads this
    {
      FloorOf(highest, window)
    }

    /** `acceptAuthenticated`: while open, a counter is accepted exactly when it is not below
        the floor and was never accepted before. */
    method Accept(counter: nat) returns (r: Verdict)
      requires Valid()
      modifies this
      ensures Valid() && destroyed == old(destroyed)
      ensures counter > maximum ==> r == Invalid
      ensures counter <= maximum && old(closed) ==> r == Exhausted
      ensures counter <= maximum && !old(closed) ==>
        r == if counter >= old(Floor()) && counter !in old(accepted) then Accepted else Replay
      ensures accepted == if r == Accepted then old(accepted) + {counter} else old(accepted)
      ensures r != Accepted ==> highest == old(highest) && bitmap == old(bitmap) && closed == old(closed)
      ensures r == Accepted ==> closed == (counter == maximum)
    {
      if counter > maximum {
        return Invalid;
      }
      if closed {
        return Exhausted;
      }
      if highest.None? {
        FirstMirrors(window, counter);
        highest, bitmap := Some(counter), 1;
        accepted := accepted + {counter};
        closed := counter == maximum;
        return Accepted;
      }
      if counter > highest.value {
        ShiftMirrors(bitmap, window, highest.value, accepted, counter);
        var shift := counter - highest.value;
        bitmap := if shift >= window then 1 else And(Or(Shl(bitmap, shift), 1), mask);
        highest := Some(counter);
        accepted := accepted + {counter};
        closed := counter == maximum;
        return Accepted;
      }
      if counter < Floor() {
        return Replay;
      }
      SetMirrors(bitmap, window, highest.value, accepted, counter);
      var bit := Shl(1, highest.value - counter);
      if And(bitmap, bit) != 0 {
        return Replay;
      }
      bitmap := Or(bitmap, bit);
      accepted := accepted + {counter};
      r := Accepted;
    }

    /** `buffered`: the popcount loop counts the accepted counters the window covers. */
    method Buffered() returns (count: nat)
      requires Valid()
      ensures !destroyed && highest.Some? ==> count == |Recent(accepted, highest.value, window)|
      ensures highest.None? ==> count == 0
    {
      var rest := bitmap;
      count := 0;
      while rest != 0
        invariant count + Ones(rest) == Ones(bitmap)
        decreases rest
      {
        DropLowest(rest);
        rest := And(rest, rest - 1);
        count := count + 1;
      }
      if highest.Some? {
        OnesCounts(bitmap, window);
        RecentCount(bitmap, window, highest.value, accepted, window);
      }
    }

    method Destroy()
      requires Valid()
      modifies this
      ensures Valid() && closed && destroyed && highest.None?
    {
      highest, bitmap, closed := None, 0, true;
      destroyed := true;
    }
  }
}
