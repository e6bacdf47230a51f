/** Sums over finite sets of handles. */
module Sums {

  ghost function Sum(s: set<nat>, f: nat -> int): int
  {
    if s == {} then 0 else
    var x :| x in s;
    f(x) + Sum(s - {x}, f)
  }

  /** The order of summation does not matter. */
  lemma {:induction false} SumRemove(s: set<nat>, f: nat -> int, x: nat)
    requires x in s
    ensures Sum(s, f) == f(x) + Sum(s - {x}, f)
  {
    var y :| y in s && Sum(s, f) == f(y) + Sum(s - {y}, f);
    if y != x {
      SumRemove(s - {y}, f, x);
      SumRemove(s - {x}, f, y);
      assert s - {y} - {x} == s - {x} - {y};
    }
  }

  lemma SumAdd(s: set<nat>, f: nat -> int, x: nat)
    requires x !in s
    ensures Sum(s + {x}, f) == Sum(s, f) + f(x)
  {
    SumRemove(s + {x}, f, x);
    assert s + {x} - {x} == s;
  }

  /** Two functions that differ at one point only. */
  lemma {:induction false} SumChange(s: set<nat>, f: nat -> int, g: nat -> int, x: nat)
    requires forall y :: y in s && y != x ==> f(y) == g(y)
    ensures Sum(s, g) == Sum(s, f) + (if x in s then g(x) - f(x) else 0)
  {
    if s != {} {
      var y :| y in s;
      SumRemove(s, f, y);
      SumRemove(s, g, y);
      SumChange(s - {y}, f, g, x);
    }
  }

  lemma {:induction false} SumNonNegative(s: set<nat>, f: nat -> int)
    requires forall y :: y in s ==> f(y) >= 0
    ensures Sum(s, f) >= 0
    ensures forall y :: y in s ==> f(y) <= Sum(s, f)
  {
    forall y | y in s ensures f(y) <= Sum(s, f) {
      SumRemove(s, f, y);
      SumNonNegative(s - {y}, f);
    }
    if s != {} {
      var y :| y in s;
      SumRemove(s, f, y);
      SumNonNegative(s - {y}, f);
    }
  }
}
