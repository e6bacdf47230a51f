/**
 Branch slots: at most `capacity` branches hold authority at once.  A branch's authority is
 four root ledgers; retiring it frees its slot and keeps what it spent as evidence.
 */
module BranchSlots {
  import opened Options
  import opened Sums
  import opened LedgerTree
  import opened PeerLedger
  import Narrowing

  /** Send, receive, and the send and receive partitions of closure. */
  const KINDS: nat := 4

  datatype Authority = Authority(roots: seq<Handle>, released: bool, joinDeferred: bool)

  type Authorities = map<nat, Authority>

  // ---- sums over branches ----

  /** What branch x has spent of kind k, in one dimension. */
  ghost function SpentOf(b: Book, auths: Authorities, k: nat, d: Dim, x: nat): int
  {
    if x in auths && k < |auths[x].roots| && auths[x].roots[k] in b then At(b[auths[x].roots[k]].spent, d) else 0
  }

  ghost function AllottedOf(b: Book, auths: Authorities, k: nat, d: Dim, x: nat): int
  {
    if x in auths && k < |auths[x].roots| && auths[x].roots[k] in b then At(b[auths[x].roots[k]].allotted, d) else 0
  }

  ghost function Spending(b: Book, auths: Authorities, k: nat, d: Dim): nat -> int
  {
    (x: nat) => SpentOf(b, auths, k, d, x)
  }

  ghost function Holding(b: Book, auths: Authorities, k: nat, d: Dim): nat -> int
  {
    (x: nat) => AllottedOf(b, auths, k, d, x)
  }

  ghost function Live(auths: Authorities): set<nat>
  {
    set x | x in auths && !auths[x].released
  }

  ghost function Retired(auths: Authorities): set<nat>
  {
    set x | x in auths && auths[x].released
  }

  /** Retired totals are the sums of what the retired branches spent. */
  ghost predicate Evidence(b: Book, auths: Authorities, retiredSpent: seq<Row>)
  {
    && |retiredSpent| == KINDS
    && forall k, d :: 0 <= k < KINDS ==> At(retiredSpent[k], d) == Sum(Retired(auths), Spending(b, auths, k, d))
  }

  /** Every branch has its own four root ledgers. */
  ghost predicate Rooting(b: Book, auths: Authorities)
  {
    && (forall x :: x in auths ==> |auths[x].roots| == KINDS)
    && (forall x, k :: x in auths && 0 <= k < KINDS ==> auths[x].roots[k] in b && b[auths[x].roots[k]].parent == None)
  }

  /** A retired branch can spend no more. */
  ghost predicate Barred(b: Book, auths: Authorities)
    requires Rooting(b, auths)
  {
    forall x, k :: x in auths && auths[x].released && 0 <= k < KINDS ==> b[auths[x].roots[k]].released
  }

  ghost predicate Sane(b: Book, auths: Authorities, retiredSpent: seq<Row>)
  {
    Rooting(b, auths) && Barred(b, auths) && Evidence(b, auths, retiredSpent)
  }

  lemma SumSame(s: set<nat>, f: nat -> int, g: nat -> int)
    requires forall x :: x in s ==> g(x) == f(x)
    ensures Sum(s, g) == Sum(s, f)
  {
    var y: nat := 0;
    SumChange(s, f, g, y);
  }

  /** The book moved on without touching what retired branches spent. */
  lemma SaneKept(b: Book, b': Book, auths: Authorities, auths': Authorities, retiredSpent: seq<Row>)
    requires Sane(b, auths, retiredSpent) && Rooting(b', auths') && Retired(auths') == Retired(auths)
    requires forall x :: x in Retired(auths) ==> auths'[x].roots == auths[x].roots
    requires forall x, k :: x in Retired(auths) && 0 <= k < KINDS ==>
      && b'[auths[x].roots[k]].spent == b[auths[x].roots[k]].spent
      && b'[auths[x].roots[k]].released
    ensures Sane(b', auths', retiredSpent)
  {
    forall k, d | 0 <= k < KINDS
      ensures At(retiredSpent[k], d) == Sum(Retired(auths'), Spending(b', auths', k, d))
    {
      SumSame(Retired(auths), Spending(b, auths, k, d), Spending(b', auths', k, d));
    }
    forall x, k | x in auths' && auths'[x].released && 0 <= k < KINDS
      ensures b'[auths'[x].roots[k]].released
    {
      assert x in Retired(auths');
    }
  }

  // ---- the registry between calls of the pool ----

  /** What may be done to the ledgers of the registry, each with the effect its method has
      when it succeeds. */
  datatype Operation =
    | Creation(n: Handle, row: Row)
    | Reservation(parent: Handle, n: Handle, row: Row)
    | Charge(h: Handle, row: Row)
    | Release(h: Handle)
    | Narrow(plans: seq<Narrowing.Plan>)

  ghost predicate Changes(b: Book, op: Operation, b': Book)
  {
    match op
    case Creation(n, row) => n !in b && b' == b[n := Opened(None, row)]
    case Reservation(p, n, row) =>
      p in b && n !in b && n != p && b' == b[p := Reserving(b[p], n, row)][n := Opened(Some(p), row)]
    case Charge(h, row) =>
      && h in b && !b[h].released && Encodable(row)
      && b'.Keys == b.Keys && forall x :: x in b' ==> b'[x] == AfterCharge(b, h, row, x)
    case Release(h) =>
      h in b && SameFamily(b, b') && forall x :: x in b' ==> b'[x] == AfterRelease(b, h, x)
    case Narrow(plans) => Narrowing.Acceptable(b, plans) && b' == Narrowing.Narrowed(b, plans)
  }

  /** Ledgers stay where they are, spend no less than before, and once released spend no
      more and stay released. */
  ghost predicate SpendsOn(b: Book, b': Book)
  {
    forall h :: h in b ==> h in b' && SpendsOnAt(b[h], b'[h])
  }

  ghost predicate SpendsOnAt(l: Ledger, l': Ledger)
  {
    && l'.parent == l.parent && (l.released ==> l'.released && l'.spent == l.spent)
    && Leq(l.spent, l'.spent)
  }

  lemma ChargeSpendsOn(b: Book, h: Handle, row: Row, x: Handle)
    requires LedgerTree.Sound(b) && h in b && !b[h].released && Encodable(row) && x in b
    ensures SpendsOnAt(b[x], AfterCharge(b, h, row, x))
  {
    if Line(b, h, x) {
      AncestorsLive(b, h, x);
    }
  }

  lemma NarrowSpendsOn(b: Book, plans: seq<Narrowing.Plan>, x: Handle)
    requires LedgerTree.Sound(b) && Narrowing.Acceptable(b, plans) && x in b
    ensures SpendsOnAt(b[x], Narrowing.Narrowed(b, plans)[x])
  {
    Narrowing.NarrowedIs(b, plans, x);
  }

  lemma OperationSpendsOn(b: Book, op: Operation, b': Book)
    requires LedgerTree.Sound(b) && Changes(b, op, b')
    ensures SpendsOn(b, b')
  {
    hide LedgerTree.Sound, Line;
    match op
    case Charge(h, row) =>
      hide AfterCharge;
      forall x | x in b ensures x in b' && SpendsOnAt(b[x], b'[x]) {
        ChargeSpendsOn(b, h, row, x);
      }
    case Narrow(plans) =>
      hide Narrowing.Acceptable, Narrowing.Narrowed, SpendsOnAt;
      forall x | x in b ensures x in b' && SpendsOnAt(b[x], b'[x]) {
        NarrowSpendsOn(b, plans, x);
      }
    case _ =>
  }

  /** Whatever is created, reserved, charged, released or narrowed between two calls of the
      pool, its books stay in order: no retired branch's evidence changes. */
  lemma SpendingOnKeepsSane(b: Book, b': Book, auths: Authorities, retiredSpent: seq<Row>)
    requires Sane(b, auths, retiredSpent) && SpendsOn(b, b')
    ensures Sane(b', auths, retiredSpent)
  {
    hide Sum;
    SaneKept(b, b', auths, auths, retiredSpent);
  }

  /** ... and nothing that was reported as spent is ever lost. */
  lemma SpendingOnAdds(b: Book, b': Book, auths: Authorities, k: nat, d: Dim)
    requires Rooting(b, auths) && SpendsOn(b, b')
    ensures Sum(auths.Keys, Spending(b, auths, k, d)) <= Sum(auths.Keys, Spending(b', auths, k, d))
  {
    forall x | x in auths.Keys
      ensures Spending(b, auths, k, d)(x) <= Spending(b', auths, k, d)(x)
    {
      if k < |auths[x].roots| {
        var root := auths[x].roots[k];
        assert root in b && SpendsOnAt(b[root], b'[root]);
      }
    }
    SumGrows(auths.Keys, Spending(b, auths, k, d), Spending(b', auths, k, d));
  }

  lemma {:induction false} SumGrows(s: set<nat>, f: nat -> int, g: nat -> int)
    requires forall x :: x in s ==> f(x) <= g(x)
    ensures Sum(s, f) <= Sum(s, g)
  {
    if s != {} {
      var x :| x in s;
      SumRemove(s, f, x);
      SumRemove(s, g, x);
      SumGrows(s - {x}, f, g);
    }
  }

  lemma SaneRoots(b: Book, auths: Authorities, retiredSpent: seq<Row>)
    requires Sane(b, auths, retiredSpent)
    ensures Rooting(b, auths)
  {
  }

  /** A run of the registry between two calls of the pool. */
  ghost predicate RegistryRun(books: seq<Book>, ops: seq<Operation>)
  {
    && |books| == |ops| + 1
    && forall i :: 0 <= i < |ops| ==> LedgerTree.Sound(books[i]) && Changes(books[i], ops[i], books[i + 1])
  }

  /** Over any run of registry operations, on the branches' own roots too, the pool's books
      stay in order and the spending it reports never shrinks. */
  lemma {:induction false} NothingReportedIsLost(books: seq<Book>, ops: seq<Operation>, n: nat, auths: Authorities,
                                                 retiredSpent: seq<Row>)
    requires RegistryRun(books, ops) && n <= |ops| && Sane(books[0], auths, retiredSpent)
    ensures Sane(books[n], auths, retiredSpent)
    ensures forall k, d :: 0 <= k < KINDS ==>
      Sum(auths.Keys, Spending(books[0], auths, k, d)) <= Sum(auths.Keys, Spending(books[n], auths, k, d))
  {
    hide Sum, SpendsOn, Sane, LedgerTree.Sound, Changes, Rooting;
    if n > 0 {
      NothingReportedIsLost(books, ops, n - 1, auths, retiredSpent);
      assert Changes(books[n - 1], ops[n - 1], books[n]);
      OperationSpendsOn(books[n - 1], ops[n - 1], books[n]);
      SaneRoots(books[n - 1], auths, retiredSpent);
      SpendingOnKeepsSane(books[n - 1], books[n], auths, retiredSpent);
      forall k, d | 0 <= k < KINDS
        ensures Sum(auths.Keys, Spending(books[0], auths, k, d)) <= Sum(auths.Keys, Spending(books[n], auths, k, d))
      {
        SpendingOnAdds(books[n - 1], books[n], auths, k, d);
      }
    }
  }

  /** What the pool reports as spent: every branch ever taken, retired or live. */
  lemma ReportedIsAll(b: Book, auths: Authorities, retiredSpent: seq<Row>, k: nat, d: Dim)
    requires Sane(b, auths, retiredSpent) && k < KINDS
    ensures At(retiredSpent[k], d) + Sum(Live(auths), Spending(b, auths, k, d)) == Sum(auths.Keys, Spending(b, auths, k, d))
  {
    SumUnion(Retired(auths), Live(auths), Spending(b, auths, k, d));
    assert Retired(auths) + Live(auths) == auths.Keys;
  }

  lemma {:induction false} SumUnion(s: set<nat>, t: set<nat>, f: nat -> int)
    requires s !! t
    ensures Sum(s + t, f) == Sum(s, f) + Sum(t, f)
    decreases t
  {
    if t == {} {
      assert s + t == s;
    } else {
      var x :| x in t;
      SumUnion(s, t - {x}, f);
      SumRemove(t, f, x);
      SumRemove(s + t, f, x);
      assert s + t - {x} == s + (t - {x});
    }
  }

  /** Ledgers after some releases: nothing spent changes, and released stays released. */
  ghost predicate OnlyReleases(b: Book, b': Book)
  {
    && SameFamily(b, b')
    && forall h :: h in b ==> b'[h].spent == b[h].spent && (b[h].released ==> b'[h].released)
  }

  lemma LineSelf(b: Book, h: Handle)
    requires h in b
    ensures Line(b, h, h)
  {
  }

  // ---- releasing whole subtrees, and nothing else ----

  /** One of these ledgers is x or an ancestor of it. */
  ghost predicate Below(b: Book, roots: set<Handle>, x: Handle)
  {
    exists h :: h in roots && Line(b, x, h)
  }

  function Felled(l: Ledger): Ledger
  {
    if l.released then l else l.(released := true, reserved := ZERO, children := {})
  }

  ghost predicate Tops(b: Book, roots: set<Handle>)
  {
    forall h :: h in roots ==> h in b && b[h].parent == None
  }

  /** The subtrees of these roots were released; every other ledger is as it was. */
  ghost predicate Fells(b: Book, roots: set<Handle>, b': Book)
  {
    && SameFamily(b, b') && Tops(b, roots)
    && forall x :: x in b ==> b'[x] == if Below(b, roots, x) then Felled(b[x]) else b[x]
  }

  lemma FellsNothing(b: Book)
    ensures Fells(b, {}, b)
  {
  }

  /** Releasing one root, or finding it released. */
  lemma FellsOne(b: Book, h: Handle, b': Book)
    requires LedgerTree.Sound(b) && h in b && b[h].parent == None && SameFamily(b, b')
    requires if b[h].released then b' == b else forall x :: x in b' ==> b'[x] == AfterRelease(b, h, x)
    ensures Fells(b, {h}, b')
  {
    hide LedgerTree.Sound, Line;
    forall x | x in b
      ensures b'[x] == if Below(b, {h}, x) then Felled(b[x]) else b[x]
    {
      assert h in {h};
      if Line(b, x, h) && !b[x].released {
        AncestorsLive(b, x, h);
      }
    }
  }

  lemma FellsMore(b: Book, roots: set<Handle>, b1: Book, more: set<Handle>, b2: Book)
    requires LedgerTree.Sound(b) && Fells(b, roots, b1) && Fells(b1, more, b2)
    ensures Fells(b, roots + more, b2)
  {
    hide Line;
    forall x | x in b
      ensures b2[x] == if Below(b, roots + more, x) then Felled(b[x]) else b[x]
    {
      BelowMore(b, roots, b1, more, x);
    }
  }

  lemma BelowMore(b: Book, roots: set<Handle>, b1: Book, more: set<Handle>, x: Handle)
    requires Rooted(b) && SameFamily(b, b1) && x in b
    ensures Below(b, roots + more, x) <==> Below(b, roots, x) || Below(b1, more, x)
  {
    hide Line;
    forall h ensures Line(b1, x, h) <==> Line(b, x, h) {
      LineKept(b, b1, x, h);
    }
    if Below(b, roots, x) || Below(b1, more, x) {
      var h :| Line(b, x, h) && (h in roots || h in more);
      assert h in roots + more;
    }
  }

  lemma FellsReleases(b: Book, roots: set<Handle>, b': Book)
    requires Fells(b, roots, b')
    ensures OnlyReleases(b, b') && forall h :: h in roots ==> b'[h].released
  {
    hide Line;
    forall h | h in roots ensures b'[h].released {
      LineSelf(b, h);
    }
  }

  /** Two roots without parents share no ledger. */
  lemma {:induction false} OneTop(b: Book, x: Handle, g: Handle, h: Handle)
    requires Line(b, x, g) && Line(b, x, h) && Tops(b, {g, h})
    ensures g == h
    decreases x
  {
    assert g in {g, h} && h in {g, h};
    if x != g && x != h {
      OneTop(b, b[x].parent.value, g, h);
    }
  }

  /** A subtree whose root is not among those released keeps every ledger as it was. */
  lemma FellsSpares(b: Book, roots: set<Handle>, b': Book, g: Handle, x: Handle)
    requires Fells(b, roots, b') && g in b && b[g].parent == None && g !in roots && x in b && Line(b, x, g)
    ensures b'[x] == b[x]
  {
    hide Line;
    if Below(b, roots, x) {
      var h :| h in roots && Line(b, x, h);
      OneTop(b, x, g, h);
    }
  }

  function Handles(roots: seq<Handle>): set<Handle>
  {
    set h | h in roots
  }

  /** The roots of several branches. */
  ghost function RootsOf(auths: Authorities, xs: set<nat>): set<Handle>
  {
    set x, h | x in xs && x in auths && h in auths[x].roots :: h
  }

  /** No ledger is a root twice. */
  ghost predicate Apart(auths: Authorities)
  {
    forall x, y, i, j ::
      x in auths && y in auths && 0 <= i < |auths[x].roots| && 0 <= j < |auths[y].roots| ==>
        auths[x].roots[i] == auths[y].roots[j] ==> x == y && i == j
  }

  /** The ledgers of a branch: everything below its roots. */
  ghost predicate Untouched(b: Book, b': Book, auths: Authorities, y: nat)
    requires y in auths
  {
    forall x :: x in b && Below(b, Handles(auths[y].roots), x) ==> x in b' && b'[x] == b[x]
  }

  /** Retiring branches leaves the authority of every other branch as it was. */
  lemma OthersSpared(b: Book, b': Book, auths: Authorities, xs: set<nat>)
    requires Fells(b, RootsOf(auths, xs), b') && Rooting(b, auths) && Apart(auths)
    ensures forall y :: y in auths && y !in xs ==> Untouched(b, b', auths, y)
  {
    hide Fells, Rooting, Apart, Untouched, RootsOf;
    forall y | y in auths && y !in xs ensures Untouched(b, b', auths, y) {
      RetiringSpares(b, b', auths, xs, y);
    }
  }

  lemma RetiringSpares(b: Book, b': Book, auths: Authorities, xs: set<nat>, y: nat)
    requires Fells(b, RootsOf(auths, xs), b') && Rooting(b, auths) && Apart(auths) && y in auths && y !in xs
    ensures Untouched(b, b', auths, y)
  {
    hide Line;
    forall x | x in b && Below(b, Handles(auths[y].roots), x)
      ensures b'[x] == b[x]
    {
      var g :| g in Handles(auths[y].roots) && Line(b, x, g);
      var j :| 0 <= j < KINDS && auths[y].roots[j] == g;
      assert g !in RootsOf(auths, xs) by {
        if z, i :| z in xs && z in auths && 0 <= i < |auths[z].roots| && auths[z].roots[i] == g {
          assert false;
        }
      }
      FellsSpares(b, RootsOf(auths, xs), b', g, x);
    }
  }

  /** These branches were retired and nothing else happened to any. */
  ghost predicate RetiredIn(auths: Authorities, auths': Authorities, xs: set<nat>)
  {
    && auths'.Keys == auths.Keys
    && forall x :: x in auths ==> auths'[x] == if x in xs then auths[x].(released := true) else auths[x]
  }

  /** A close under way: of the branches not in `todo`, those stay whose join is deferred. */
  ghost predicate Closing(auths: Authorities, auths': Authorities, was: set<nat>, live: set<nat>, todo: set<nat>)
  {
    && todo <= live <= was <= auths.Keys && RetiredIn(auths, auths', was - live)
    && forall x :: x in was && x !in todo ==> (x in live <==> auths[x].joinDeferred)
  }

  lemma ClosingBegins(auths: Authorities, live: set<nat>)
    requires live <= auths.Keys
    ensures Closing(auths, auths, live, live, live) && RetiredIn(auths, auths, live - live)
    ensures RootsOf(auths, live - live) == {}
  {
  }

  lemma ClosingOne(auths: Authorities, auths': Authorities, was: set<nat>, live: set<nat>, todo: set<nat>, x: nat)
    requires Closing(auths, auths', was, live, todo) && x in todo
    ensures x in auths && auths'.Keys == auths.Keys && auths'[x] == auths[x] && x in live
    ensures var kept := auths[x].joinDeferred;
      var auths2 := if kept then auths' else auths'[x := auths'[x].(released := true)];
      Closing(auths, auths2, was, if kept then live else live - {x}, todo - {x})
    ensures RootsOf(auths, was - (live - {x})) == RootsOf(auths, was - live) + Handles(auths[x].roots)
  {
  }

  lemma ClosingEnds(auths: Authorities, auths': Authorities, was: set<nat>, live: set<nat>)
    requires Closing(auths, auths', was, live, {})
    ensures live == (set x | x in was && auths[x].joinDeferred) && RetiredIn(auths, auths', was - live)
    ensures forall x :: x in live ==> x in auths && x !in was - live
  {
  }

  lemma RetiredApart(auths: Authorities, x: nat)
    requires Apart(auths) && x in auths
    ensures Apart(auths[x := auths[x].(released := true)])
    ensures RootsOf(auths, {x}) == Handles(auths[x].roots)
  {
  }

  lemma RetiredMore(auths: Authorities, x: nat)
    requires x in auths && !auths[x].released
    ensures Retired(auths[x := auths[x].(released := true)]) == Retired(auths) + {x}
    ensures Live(auths[x := auths[x].(released := true)]) == Live(auths) - {x}
  {
  }

  lemma RetireKeeps(b: Book, b': Book, auths: Authorities, x: nat, retiredSpent: seq<Row>, retiredSpent': seq<Row>)
    requires Sane(b, auths, retiredSpent) && x in auths && !auths[x].released && OnlyReleases(b, b')
    requires forall k :: 0 <= k < KINDS ==> b'[auths[x].roots[k]].released
    requires |retiredSpent'| == KINDS
    requires forall k :: 0 <= k < KINDS ==> retiredSpent'[k] == Plus(retiredSpent[k], b[auths[x].roots[k]].spent)
    ensures Sane(b', auths[x := auths[x].(released := true)], retiredSpent')
    ensures Retired(auths[x := auths[x].(released := true)]) == Retired(auths) + {x}
    ensures Live(auths[x := auths[x].(released := true)]) == Live(auths) - {x}
  {
    hide Sum;
    var auths' := auths[x := auths[x].(released := true)];
    RetiredMore(auths, x);
    forall k, d | 0 <= k < KINDS
      ensures At(retiredSpent'[k], d) == Sum(Retired(auths'), Spending(b', auths', k, d))
    {
      SumAdd(Retired(auths), Spending(b', auths', k, d), x);
      SumSame(Retired(auths), Spending(b, auths, k, d), Spending(b', auths', k, d));
    }
  }

  /** The book has grown by root ledgers of these rows, and by nothing else. */
  ghost predicate RootsOpened(b: Book, roots: seq<Handle>, rows: seq<Row>, b': Book)
  {
    && |roots| == |rows| && b'.Keys == b.Keys + Handles(roots)
    && (forall h :: h in b ==> b'[h] == b[h])
    && (forall i, j :: 0 <= i < j < |roots| ==> roots[i] != roots[j])
    && forall k :: 0 <= k < |roots| ==> roots[k] !in b && roots[k] in b' && b'[roots[k]] == Opened(None, rows[k])
  }

  lemma OneMoreRoot(b: Book, roots: seq<Handle>, rows: seq<Row>, b1: Book, h: Handle, row: Row)
    requires RootsOpened(b, roots, rows, b1) && h !in b1
    ensures RootsOpened(b, roots + [h], rows + [row], b1[h := Opened(None, row)])
  {
  }

  lemma TakeKeeps(b: Book, b': Book, auths: Authorities, x: nat, roots: seq<Handle>, rows: seq<Row>, retiredSpent: seq<Row>)
    requires Sane(b, auths, retiredSpent) && Apart(auths) && x !in auths && |rows| == KINDS
    requires RootsOpened(b, roots, rows, b')
    ensures var auths' := auths[x := Authority(roots, false, false)];
            && Sane(b', auths', retiredSpent) && Apart(auths')
            && Retired(auths') == Retired(auths) && Live(auths') == Live(auths) + {x}
  {
    hide Sum;
    SaneKept(b, b', auths, auths[x := Authority(roots, false, false)], retiredSpent);
  }

  /** The report so far: the live branches in `done` are counted. */
  ghost predicate Summed(done: set<nat>, b: Book, auths: Authorities, k: nat, base: Row, held: Row, spent: Row)
  {
    forall d :: At(held, d) == Sum(done, Holding(b, auths, k, d)) && At(spent, d) == At(base, d) + Sum(done, Spending(b, auths, k, d))
  }

  lemma SummedNone(b: Book, auths: Authorities, k: nat, base: Row)
    ensures Summed({}, b, auths, k, base, ZERO, base)
  {
  }

  lemma SummedOne(done: set<nat>, x: nat, b: Book, auths: Authorities, k: nat, base: Row, held: Row, spent: Row)
    requires Summed(done, b, auths, k, base, held, spent) && x !in done
    requires x in auths && k < |auths[x].roots| && auths[x].roots[k] in b
    ensures var l := b[auths[x].roots[k]];
            Summed(done + {x}, b, auths, k, base, Plus(held, l.allotted), Plus(spent, l.spent))
  {
    hide Sum;
    forall d
      ensures Sum(done + {x}, Holding(b, auths, k, d)) == Sum(done, Holding(b, auths, k, d)) + AllottedOf(b, auths, k, d, x)
      ensures Sum(done + {x}, Spending(b, auths, k, d)) == Sum(done, Spending(b, auths, k, d)) + SpentOf(b, auths, k, d, x)
    {
      SumAdd(done, Holding(b, auths, k, d), x);
      SumAdd(done, Spending(b, auths, k, d), x);
    }
  }

  lemma SummedAll(b: Book, auths: Authorities, retiredSpent: seq<Row>, k: nat, held: Row, spent: Row)
    requires Sane(b, auths, retiredSpent) && k < KINDS
    requires Summed(Live(auths), b, auths, k, retiredSpent[k], held, spent)
    ensures forall d :: At(held, d) == Sum(Live(auths), Holding(b, auths, k, d))
    ensures forall d :: At(spent, d) == Sum(auths.Keys, Spending(b, auths, k, d))
  {
    hide Sum;
    forall d
      ensures At(spent, d) == Sum(auths.Keys, Spending(b, auths, k, d))
    {
      ReportedIsAll(b, auths, retiredSpent, k, d);
    }
  }

  /** Root ledgers of exactly the admitted rows. */
  method OpenRoots(reg: Registry, rows: seq<Row>) returns (roots: seq<Handle>)
    requires reg.Valid() && forall k :: 0 <= k < |rows| ==> Encodable(rows[k])
    modifies reg
    ensures reg.Valid() && RootsOpened(old(reg.book), roots, rows, reg.book)
  {
    hide LedgerTree.Sound, History, RootsOpened;
    roots := [];
    NoRoots(reg.book);
    for k := 0 to |rows|
      invariant reg.Valid() && RootsOpened(old(reg.book), roots, rows[..k], reg.book)
    {
      ghost var b := reg.book;
      var h := reg.Create(rows[k]);
      OneMoreRoot(old(reg.book), roots, rows[..k], b, h.value, rows[k]);
      assert rows[..k] + [rows[k]] == rows[..k + 1];
      roots := roots + [h.value];
    }
    assert rows[..|rows|] == rows;
  }

  lemma NoRoots(b: Book)
    ensures RootsOpened(b, [], [], b)
  {
  }

  datatype Taking = Taken(authority: nat) | Invalid | QuotaExceeded

  class Slots {
    const reg: Registry
    const capacity: nat
    var live: set<nat>
    var retired: nat
    var closed: bool
    var retiredSpent: seq<Row>
    /** Every authority ever taken. */
    var auths: Authorities
    var next: nat

    ghost predicate Valid()
      reads this`live, this`retired, this`retiredSpent, this`auths, this`next, reg
    {
      && reg.Valid() && Sane(reg.book, auths, retiredSpent) && Apart(auths)
      && live == Live(auths) && retired == |Retired(auths)| && |live| <= capacity
      && (forall x :: x in auths ==> x < next)
    }

    /** `createPeerBranchSlots`. */
    constructor (reg: Registry, capacity: nat)
      requires reg.Valid() && 1 <= capacity
      ensures Valid() && auths == map[] && !closed && this.reg == reg && this.capacity == capacity
    {
      this.reg, this.capacity := reg, capacity;
      live, retired, closed, auths, next := {}, 0, false, map[], 0;
      retiredSpent := [ZERO, ZERO, ZERO, ZERO];
      new;
      assert Retired(auths) == {} && Live(auths) == {};
    }

    /** Live branches and retired ones are all the branches ever taken. */
    lemma EveryTakeCounted()
      requires Valid()
      ensures |live| + retired == |auths|
    {
      assert auths.Keys == Live(auths) + Retired(auths);
    }

    /** `takePeerBranchAuthority`: a refused take changes nothing. */
    method Take(rows: seq<Row>) returns (r: Taking)
      requires Valid()
      modifies this, reg
      ensures Valid() && closed == old(closed) && retired == old(retired) && retiredSpent == old(retiredSpent)
      ensures r == Invalid <==> |rows| != KINDS || (exists k :: 0 <= k < |rows| && !Encodable(rows[k])) || old(closed)
      ensures r.Taken? ==>
        && |old(live)| < capacity && r.authority !in old(auths) && auths.Keys == old(auths).Keys + {r.authority}
        && live == old(live) + {r.authority} && (forall x :: x in old(auths) ==> auths[x] == old(auths)[x])
        && RootsOpened(old(reg.book), auths[r.authority].roots, rows, reg.book)
        && !auths[r.authority].released && !auths[r.authority].joinDeferred
      ensures r == QuotaExceeded ==> |old(live)| == capacity
      ensures !r.Taken? ==> unchanged(this) && unchanged(reg)
    {
      hide LedgerTree.Sound, History, Sane, Live, Retired, Apart, Rooting, RootsOpened;
      if |rows| != KINDS || (exists k :: 0 <= k < |rows| && !Encodable(rows[k])) || closed {
        return Invalid;
      }
      if |live| >= capacity {
        return QuotaExceeded;
      }
      var roots := OpenRoots(reg, rows);
      TakeKeeps(old(reg.book), reg.book, auths, next, roots, rows, retiredSpent);
      auths := auths[next := Authority(roots, false, false)];
      live := live + {next};
      r := Taken(next);
      next := next + 1;
    }

    /** `deferPeerBranchAuthorityJoin`. */
    method DeferJoin(x: nat) returns (r: Option<bool>)
      requires Valid()
      modifies this`auths
      ensures Valid() && live == old(live) && retired == old(retired)
      ensures r == if x !in old(auths) || old(auths)[x].released then None else Some(!old(auths)[x].joinDeferred)
      ensures auths == if r == Some(true) then old(auths)[x := old(auths)[x].(joinDeferred := true)] else old(auths)
    {
      if x !in auths || auths[x].released {
        return None;
      }
      if auths[x].joinDeferred {
        return Some(false);
      }
      var auths' := auths[x := auths[x].(joinDeferred := true)];
      assert Live(auths') == Live(auths) && Retired(auths') == Retired(auths);
      SaneKept(reg.book, reg.book, auths, auths', retiredSpent);
      auths := auths';
      r := Some(true);
    }

    /** `releasePeerBranchAuthority`: idempotent; the slot is free and what the branch spent
        is kept. */
    method Release(x: nat) returns (r: Option<bool>)
      requires Valid()
      modifies this`auths, this`live, this`retired, this`retiredSpent, reg`book
      ensures Valid()
      ensures r == if x !in old(auths) then None else Some(!old(auths)[x].released)
      ensures r != Some(true) ==> unchanged(this) && unchanged(reg)
      ensures r == Some(true) ==>
        && auths == old(auths)[x := old(auths)[x].(released := true)]
        && live == old(live) - {x} && retired == old(retired) + 1
        && OnlyReleases(old(reg.book), reg.book) && Fells(old(reg.book), Handles(auths[x].roots), reg.book)
        && forall y :: y in auths && y != x ==> Untouched(old(reg.book), reg.book, old(auths), y)
    {
      hide LedgerTree.Sound, History, Fells, Untouched, Apart, RootsOf, OnlyReleases, Evidence, Barred;
      if x !in auths {
        return None;
      }
      if auths[x].released {
        return Some(false);
      }
      RetireRoots(x);
      FellsReleases(old(reg.book), Handles(auths[x].roots), reg.book);
      RetiredApart(auths, x);
      OthersSpared(old(reg.book), reg.book, auths, {x});
      RetireKeeps(old(reg.book), reg.book, auths, x, old(retiredSpent), retiredSpent);
      auths := auths[x := auths[x].(released := true)];
      live := live - {x};
      retired := retired + 1;
      r := Some(true);
    }

    lemma LiveRoots()
      requires Valid()
      ensures |retiredSpent| == KINDS && live == Live(auths) && Sane(reg.book, auths, retiredSpent)
    {
    }

    lemma LiveRoot(x: nat, k: nat)
      requires Valid() && x in live && k < KINDS
      ensures x in auths && k < |auths[x].roots| && auths[x].roots[k] in reg.book
    {
    }

    lemma LiveKnown()
      requires Valid()
      ensures forall x :: x in live ==> x in auths && !auths[x].released
    {
    }

    /** `releasePeerBranchAuthority` of a live branch. */
    method RetireLive(x: nat)
      requires Valid() && x in live
      modifies this`auths, this`live, this`retired, this`retiredSpent, reg`book
      ensures Valid() && live == old(live) - {x} && auths == old(auths)[x := old(auths)[x].(released := true)]
      ensures Fells(old(reg.book), Handles(auths[x].roots), reg.book)
    {
      hide LedgerTree.Sound, History, Sane, OnlyReleases, Fells;
      var _ := Release(x);
    }

    /** The loop over the four kinds: note what was spent, release the root. */
    method RetireRoots(x: nat)
      requires Valid() && x in auths && !auths[x].released
      modifies this`retiredSpent, reg`book
      ensures reg.Valid() && Fells(old(reg.book), Handles(auths[x].roots), reg.book) && |retiredSpent| == KINDS
      ensures forall k :: 0 <= k < KINDS ==>
        retiredSpent[k] == Plus(old(retiredSpent)[k], old(reg.book)[auths[x].roots[k]].spent)
    {
      hide LedgerTree.Sound, History, AfterRelease, Fells;
      var roots := auths[x].roots;
      FellsNothing(reg.book);
      assert Handles(roots[..0]) == {};
      for k := 0 to KINDS
        invariant reg.Valid() && Fells(old(reg.book), Handles(roots[..k]), reg.book) && |retiredSpent| == KINDS
        invariant OnlyReleases(old(reg.book), reg.book)
        invariant forall i :: 0 <= i < KINDS ==>
          retiredSpent[i] == if i < k then Plus(old(retiredSpent)[i], old(reg.book)[roots[i]].spent) else old(retiredSpent)[i]
      {
        ghost var b := reg.book;
        retiredSpent := retiredSpent[k := Plus(retiredSpent[k], reg.book[roots[k]].spent)];
        var _ := reg.Release(roots[k]);
        FellsOne(b, roots[k], reg.book);
        FellsMore(old(reg.book), Handles(roots[..k]), b, {roots[k]}, reg.book);
        assert Handles(roots[..k + 1]) == Handles(roots[..k]) + {roots[k]};
        FellsReleases(old(reg.book), Handles(roots[..k + 1]), reg.book);
      }
      assert roots[..KINDS] == roots;
    }

    /** `closePeerBranchSlots`: stops admission and retires every live branch but those whose
        join is deferred, which keep their slots and their authority. */
    method Close() returns (did: bool)
      requires Valid()
      modifies this`auths, this`live, this`retired, this`retiredSpent, this`closed, reg`book
      ensures Valid() && closed && did == !old(closed)
      ensures !did ==> unchanged(this) && unchanged(reg)
      ensures did ==>
        && live == (set x | x in old(live) && old(auths)[x].joinDeferred)
        && Fells(old(reg.book), RootsOf(old(auths), old(live) - live), reg.book)
        && OnlyReleases(old(reg.book), reg.book)
        && forall y :: y in live ==> Untouched(old(reg.book), reg.book, old(auths), y)
      ensures RetiredIn(old(auths), auths, old(live) - live)
    {
      hide Valid, Fells, OnlyReleases, RootsOf, Handles, Untouched, LedgerTree.Sound, Rooting, Apart, RetiredIn, Closing;
      LiveKnown();
      ClosingBegins(auths, live);
      if closed {
        return false;
      }
      closed := true;
      var todo := live;
      OneTree();
      FellsNothing(reg.book);
      while todo != {}
        invariant Valid() && closed && Closing(old(auths), auths, old(live), live, todo)
        invariant Fells(old(reg.book), RootsOf(old(auths), old(live) - live), reg.book)
        decreases |todo|
      {
        var x :| x in todo;
        ClosingOne(old(auths), auths, old(live), live, todo, x);
        todo := todo - {x};
        if !auths[x].joinDeferred {
          ghost var b, roots := reg.book, RootsOf(old(auths), old(live) - live);
          RetireLive(x);
          FellsMore(old(reg.book), roots, b, Handles(auths[x].roots), reg.book);
        }
      }
      did := true;
      ClosingEnds(old(auths), auths, old(live), live);
      FellsReleases(old(reg.book), RootsOf(old(auths), old(live) - live), reg.book);
      OthersSpared(old(reg.book), reg.book, old(auths), old(live) - live);
    }

    /** What `Valid` says of the books as they are. */
    lemma OneTree()
      requires Valid()
      ensures LedgerTree.Sound(reg.book) && Rooting(reg.book, auths) && Apart(auths)
    {
    }

    /** `readPeerBranchSlots`, one kind: what live branches hold, and what every branch ever
        taken has spent. */
    method Read(k: nat) returns (held: Row, spent: Row)
      requires Valid() && k < KINDS
      ensures forall d :: At(held, d) == Sum(live, Holding(reg.book, auths, k, d))
      ensures forall d :: At(spent, d) == Sum(auths.Keys, Spending(reg.book, auths, k, d))
    {
      hide Valid, Summed, Live, Sane, Sum;
      LiveRoots();
      held, spent := ZERO, retiredSpent[k];
      var todo := live;
      ghost var done: set<nat> := {};
      SummedNone(reg.book, auths, k, retiredSpent[k]);
      while todo != {}
        invariant todo + done == live && todo !! done && Summed(done, reg.book, auths, k, retiredSpent[k], held, spent)
        decreases |todo|
      {
        var x :| x in todo;
        LiveRoot(x, k);
        var l := reg.book[auths[x].roots[k]];
        SummedOne(done, x, reg.book, auths, k, retiredSpent[k], held, spent);
        held, spent := Plus(held, l.allotted), Plus(spent, l.spent);
        todo, done := todo - {x}, done + {x};
      }
      assert done == live;
      SummedAll(reg.book, auths, retiredSpent, k, held, spent);
    }
  }
}
