/**
 The registry of peer ledgers: handles to ledger states, created, reserved from one
 another, charged through their ancestors and released with their subtrees.
 */
module PeerLedger {
  import opened Options
  import opened LedgerTree
  import opened Sums

  /** What `x` is after `h` was charged. */
  ghost function AfterCharge(b: Book, h: Handle, row: Row, x: Handle): Ledger
    requires x in b
  {
    if x == h then Charged(b[x], row)
    else if Line(b, h, x) then PassedOn(b[x], row)
    else b[x]
  }

  /** What `x` is after the live ledger `h` was released. */
  ghost function AfterRelease(b: Book, h: Handle, x: Handle): Ledger
    requires x in b && h in b
  {
    if Line(b, x, h) then
      if b[x].released then b[x] else b[x].(released := true, reserved := ZERO, children := {})
    else if b[h].parent == Some(x) then Surrendered(b[x], h, Minus(b[h].allotted, b[h].spent))
    else b[x]
  }

  /** What is spent and reserved leaves room for this row, in every dimension. */
  predicate HasLeft(l: Ledger, row: Row) {
    forall d :: At(l.spent, d) + At(l.reserved, d) + At(row, d) <= At(l.allotted, d)
  }

  /** A charge is spent at the ledger and every one above it, from whose reserve it comes, and
      nowhere else; the ledger itself counts its cells. */
  lemma ChargeIs(b: Book, h: Handle, row: Row, x: Handle, d: Dim)
    requires x in b
    ensures var l, l' := b[x], AfterCharge(b, h, row, x);
      && l' == l.(spent := l'.spent, reserved := l'.reserved, directCells := l'.directCells)
      && At(l'.spent, d) == At(l.spent, d) + (if Line(b, h, x) then At(row, d) else 0)
      && At(l'.reserved, d) == At(l.reserved, d) - (if Line(b, h, x) && x != h then At(row, d) else 0)
      && l'.directCells == l.directCells + (if x == h then row.cells else 0)
  {
  }

  /** A release frees the ledger and all below it, keeps what they spent, and gives the rest
      back to the parent. */
  lemma ReleaseIs(b: Book, h: Handle, x: Handle, d: Dim)
    requires x in b && h in b && !b[h].released
    ensures var l, l' := b[x], AfterRelease(b, h, x);
      && (l'.released <==> l.released || Line(b, x, h)) && l'.spent == l.spent && l'.allotted == l.allotted
      && (Line(b, x, h) && !l.released ==> At(l'.reserved, d) == 0 && l'.children == {})
      && (!Line(b, x, h) ==>
            At(l'.reserved, d) == At(l.reserved, d) - (if b[h].parent == Some(x) then At(b[h].allotted, d) - At(b[h].spent, d) else 0))
      && (!Line(b, x, h) && b[h].parent != Some(x) ==> l' == l)
  {
  }

  /** A new child with this row, which its parent keeps in reserve; nothing else changes. */
  ghost predicate SetAside(b: Book, parent: Handle, child: Handle, row: Row, b': Book)
    requires parent in b
  {
    && b'.Keys == b.Keys + {child} && b'[child] == Ledger(Some(parent), row, Row(0, 0, 0), Row(0, 0, 0), 0, false, {})
    && (forall d :: At(b'[parent].reserved, d) == At(b[parent].reserved, d) + At(row, d))
    && b'[parent] == b[parent].(reserved := b'[parent].reserved, children := b[parent].children + {child})
    && forall x :: x in b && x != parent ==> b'[x] == b[x]
  }

  lemma ReservedIs(b: Book, parent: Handle, child: Handle, row: Row)
    requires parent in b && child !in b
    ensures SetAside(b, parent, child, row, b[parent := Reserving(b[parent], child, row)][child := Opened(Some(parent), row)])
  {
  }

  lemma RoomLeft(l: Ledger, row: Row)
    ensures Leq(row, Remaining(l)) <==> HasLeft(l, row)
  {
    assert HasLeft(l, row) ==> forall d: Dim :: At(l.spent, d) + At(l.reserved, d) + At(row, d) <= At(l.allotted, d);
    if HasLeft(l, row) {
      assert At(row, Cells) == row.cells && At(row, Bytes) == row.bytes && At(row, Commands) == row.commands;
    }
  }

  /** A charge on its way up: everything below `cur` is booked, everything from `cur` on is
      as it was. */
  ghost predicate Upward(b0: Book, b: Book, h: Handle, row: Row, cur: Option<Handle>) {
    && SameFamily(b0, b) && h in b0
    && (cur.Some? ==> cur.value in b0 && cur.value < h && Line(b0, h, cur.value))
    && (forall x :: x in b ==>
          b[x] == if cur.Some? && Line(b0, cur.value, x) then b0[x] else AfterCharge(b0, h, row, x))
  }

  lemma UpwardBegins(b0: Book, h: Handle, row: Row)
    requires Rooted(b0) && h in b0
    ensures Upward(b0, b0[h := Charged(b0[h], row)], h, row, b0[h].parent)
  {
    if b0[h].parent.Some? {
      assert IsParent(b0, b0[h].parent.value, h);
    }
    forall x | x in b0 {
      BookedOnce(b0, h, x);
    }
  }

  lemma {:induction false} LineExtends(b: Book, h: Handle, p: Handle)
    requires Rooted(b) && Line(b, h, p) && p in b && b[p].parent.Some?
    ensures Line(b, h, b[p].parent.value)
    decreases h
  {
    if h == p {
      assert IsParent(b, b[p].parent.value, p);
    } else {
      LineExtends(b, b[h].parent.value, p);
    }
  }

  lemma UpwardStep(b0: Book, b: Book, h: Handle, row: Row, p: Handle)
    requires Rooted(b0) && Upward(b0, b, h, row, Some(p))
    ensures b[p] == b0[p] && Upward(b0, b[p := PassedOn(b[p], row)], h, row, b0[p].parent)
  {
    if b0[p].parent.Some? {
      assert IsParent(b0, b0[p].parent.value, p);
      LineExtends(b0, h, p);
    }
    forall x | x in b0 {
      BookedOnce(b0, p, x);
    }
  }

  lemma UpwardEnds(b0: Book, b: Book, h: Handle, row: Row)
    requires Upward(b0, b, h, row, None)
    ensures b.Keys == b0.Keys && forall x :: x in b ==> b[x] == AfterCharge(b0, h, row, x)
  {
  }

  lemma HistoryEnds(b: Book, log: Charges, row: Row)
    requires History(b, log, None, row)
    ensures History(b, log, None, ZERO)
  {
  }

  lemma ParentIsOlder(b: Book, p: Handle)
    requires Rooted(b) && p in b && b[p].parent.Some?
    ensures b[p].parent.value < p
  {
    assert IsParent(b, b[p].parent.value, p);
  }

  lemma ParentLives(b: Book, p: Handle)
    requires Rooted(b) && Linked(b, {}) && p in b && !b[p].released && b[p].parent.Some?
    ensures b[p].parent.value in b && !b[b[p].parent.value].released
  {
    assert IsParent(b, b[p].parent.value, p);
  }

  /** A release of `h` in progress: it is marked, the subtrees of the children in `done` are
      released and settled, and nothing else has changed but the amounts of `h`. */
  ghost predicate Downward(b0: Book, b: Book, h: Handle, done: set<Handle>, todo: set<Handle>) {
    && SameFamily(b0, b) && h in b0
    && b[h] == b0[h].(released := true, reserved := b[h].reserved, children := todo)
    && done + todo == b0[h].children && done !! todo
    && (forall x :: x in b && x != h ==>
          b[x] == if Settled(b0, x, done) then b0[x].(released := true, reserved := ZERO, children := {}) else b0[x])
  }

  /** A live ledger in the subtree of one of the given ledgers. */
  ghost predicate Settled(b0: Book, x: Handle, done: set<Handle>)
    requires x in b0
  {
    !b0[x].released && exists c :: c in done && Line(b0, x, c)
  }

  /** Releasing one child, seen from its parent's release. */
  lemma DownwardStep(b0: Book, b: Book, b': Book, h: Handle, done: set<Handle>, todo: set<Handle>, c: Handle)
    requires Rooted(b0) && Downward(b0, b, h, done, todo) && c in todo
    requires IsParent(b0, h, c) && h < c
    requires SameFamily(b, b') && forall x :: x in b ==> b'[x] == AfterRelease(b, c, x)
    requires !b[c].released
    ensures Downward(b0, b', h, done + {c}, todo - {c})
  {
    forall x | x in b0 ensures Line(b, x, c) <==> Line(b0, x, c) {
      LineKept(b0, b, x, c);
    }
    if Line(b0, h, c) {
      LineOlder(b0, h, c);
    }
    assert b'[h] == Surrendered(b[h], c, Minus(b[c].allotted, b[c].spent));
    forall x | x in b' && x != h
      ensures b'[x] == if Settled(b0, x, done + {c}) then b0[x].(released := true, reserved := ZERO, children := {}) else b0[x]
    {
      assert Settled(b0, x, done + {c}) <==> Settled(b0, x, done) || (!b0[x].released && Line(b0, x, c));
    }
  }

  lemma DownwardBegins(b0: Book, h: Handle)
    requires h in b0
    ensures Downward(b0, b0[h := b0[h].(released := true)], h, {}, b0[h].children)
  {
  }

  lemma ChildIsLive(b: Book, doomed: set<Handle>, h: Handle, c: Handle)
    requires Rooted(b) && Linked(b, doomed) && h in b && c in b[h].children
    requires forall y :: y in doomed ==> y <= h
    ensures IsParent(b, h, c) && !b[c].released && h < c
  {
    assert IsParent(b, h, c);
  }

  lemma DownwardFacts(b0: Book, b: Book, h: Handle, done: set<Handle>, todo: set<Handle>)
    requires Downward(b0, b, h, done, todo)
    ensures SameFamily(b0, b) && h in b && b[h].children == todo && b[h].released && b[h].parent == b0[h].parent
    ensures forall c :: IsParent(b, h, c) ==> IsParent(b0, h, c)
  {
  }

  lemma {:induction false} LineThrough(b: Book, x: Handle, c: Handle, h: Handle)
    requires Rooted(b) && Line(b, x, c) && IsParent(b, h, c)
    ensures Line(b, x, h)
    decreases x
  {
    if x == c {
      assert Line(b, h, h);
    } else {
      LineThrough(b, b[x].parent.value, c, h);
    }
  }

  /** With all children settled, the whole subtree of `h` is released. */
  lemma SubtreeSettled(b0: Book, doomed: set<Handle>, h: Handle, x: Handle)
    requires Rooted(b0) && Linked(b0, doomed) && h in b0 && (forall y :: y in doomed ==> y < h)
    requires x in b0 && x != h && !b0[x].released
    ensures Settled(b0, x, b0[h].children) <==> Line(b0, x, h)
  {
    if Line(b0, x, h) {
      var c := WayDown(b0, doomed, x, h);
    }
    if Settled(b0, x, b0[h].children) {
      var c :| c in b0[h].children && Line(b0, x, c);
      assert IsParent(b0, h, c);
      LineThrough(b0, x, c, h);
    }
  }

  lemma NothingReserved(b: Book, h: Handle)
    requires Conserved(b, None, ZERO) && h in b && b[h].children == {}
    ensures b[h].reserved == ZERO
  {
    forall d ensures At(b[h].reserved, d) == 0 {
      assert Sum({}, Unspent(b, d)) == 0;
    }
    assert At(b[h].reserved, Cells) == 0 && At(b[h].reserved, Bytes) == 0 && At(b[h].reserved, Commands) == 0;
  }

  lemma DownwardEnds(b0: Book, b: Book, doomed: set<Handle>, h: Handle, done: set<Handle>)
    requires Releasing(b0, doomed) && Releasing(b, doomed + {h}) && h in b0 && !b0[h].released
    requires forall y :: y in doomed ==> y < h
    requires Downward(b0, b, h, done, {})
    ensures h in b && forall x :: x in b ==> Settle(b, h)[x] == AfterRelease(b0, h, x)
  {
    hide Conserved, Funded, Linked, Rooted;
    NothingReserved(b, h);
    assert done == b0[h].children;
    if b0[h].parent.Some? {
      ParentIsOlder(b0, h);
    }
    forall x | x in b ensures Settle(b, h)[x] == AfterRelease(b0, h, x) {
      if x != h && !b0[x].released {
        SubtreeSettled(b0, doomed, h, x);
      }
      if Line(b0, x, h) {
        LineOlder(b0, x, h);
      }
    }
  }

  class Registry {
    var book: Book
    var next: Handle
    ghost var log: Charges

    ghost predicate Valid()
      reads this
    {
      Sound(book) && History(book, log, None, ZERO) && forall h :: h in book ==> h < next
    }

    constructor ()
      ensures Valid() && book == map[] && log == []
    {
      book, next, log := map[], 0, [];
    }

    /** `createPeerLedger`. */
    method Create(row: Row) returns (r: Option<Handle>)
      requires Valid()
      modifies this
      ensures Valid()
      ensures r.Some? <==> Encodable(row)
      ensures r.Some? <==>
        && 0 <= row.cells < 0x1_0000_0000 && 0 <= row.commands < 0x1_0000_0000
        && 0 <= row.bytes < 0x1_0000_0000_0000_0000
      ensures r.Some? ==> r.value !in old(book) && book == old(book)[r.value := Opened(None, row)]
      ensures r.Some? ==> book[r.value] == Ledger(None, row, Row(0, 0, 0), Row(0, 0, 0), 0, false, {})
      ensures r.None? ==> book == old(book)
      ensures log == old(log)
    {
      if !Encodable(row) {
        return None;
      }
      CreateKeeps(book, next, row);
      HistoryGrows(book, book[next := Opened(None, row)], log, next);
      book := book[next := Opened(None, row)];
      r := Some(next);
      next := next + 1;
    }

    /** `reservePeerLedger`. */
    method Reserve(parent: Handle, row: Row) returns (r: Option<Handle>)
      requires Valid()
      modifies this
      ensures Valid()
      ensures r.Some? <==>
        parent in old(book) && !old(book)[parent].released && Encodable(row) && Leq(row, Remaining(old(book)[parent]))
      ensures r.Some? <==>
        parent in old(book) && !old(book)[parent].released && Encodable(row) && HasLeft(old(book)[parent], row)
      ensures r.Some? ==>
        && r.value !in old(book)
        && book == old(book)[parent := Reserving(old(book)[parent], r.value, row)][r.value := Opened(Some(parent), row)]
      ensures r.Some? ==> SetAside(old(book), parent, r.value, row, book)
      ensures r.None? ==> book == old(book)
      ensures log == old(log)
    {
      if parent in book {
        RoomLeft(book[parent], row);
      }
      if parent !in book || book[parent].released || !Encodable(row) || !Leq(row, Remaining(book[parent])) {
        return None;
      }
      hide Conserved, Funded, Linked, Rooted, History, SetAside;
      ReserveKeeps(book, parent, next, row);
      ReservedIs(book, parent, next, row);
      var b := book[parent := Reserving(book[parent], next, row)][next := Opened(Some(parent), row)];
      HistoryGrows(book, b, log, next);
      book := b;
      r := Some(next);
      next := next + 1;
    }

    /** `chargePeerLedger`: a charge is spending at every ancestor, moved out of reserve. */
    method Charge(h: Handle, row: Row) returns (ok: bool)
      requires Valid()
      modifies this
      ensures Valid()
      ensures ok <==> h in old(book) && !old(book)[h].released && Encodable(row) && Leq(row, Remaining(old(book)[h]))
      ensures ok <==> h in old(book) && !old(book)[h].released && Encodable(row) && HasLeft(old(book)[h], row)
      ensures ok ==> book.Keys == old(book).Keys && log == old(log) + [(h, row)]
      ensures ok ==> forall x :: x in book ==> book[x] == AfterCharge(old(book), h, row, x)
      ensures !ok ==> unchanged(this)
    {
      if h in book {
        RoomLeft(book[h], row);
      }
      if h !in book || book[h].released || !Encodable(row) || !Leq(row, Remaining(book[h])) {
        return false;
      }
      hide Conserved, Funded, Linked, Rooted, History, Upward;
      ChargeOpens(book, h, row);
      HistoryOpens(book, log, h, row);
      UpwardBegins(book, h, row);
      if book[h].parent.Some? {
        ParentLives(book, h);
      }
      var current := book[h].parent;
      book := book[h := Charged(book[h], row)];
      log := log + [(h, row)];
      while current.Some?
        invariant Climbing(book, current, row) && History(book, log, current, row)
        invariant Upward(old(book), book, h, row, current)
        invariant log == old(log) + [(h, row)]
        invariant current.Some? ==> current.value in book && !book[current.value].released
        invariant forall x :: x in book ==> x < next
        decreases if current.Some? then current.value + 1 else 0
      {
        var p := current.value;
        ChargeClimbs(book, p, row);
        HistoryClimbs(book, log, p, row);
        UpwardStep(old(book), book, h, row, p);
        if book[p].parent.Some? {
          ParentLives(book, p);
          ParentIsOlder(book, p);
        }
        current := book[p].parent;
        book := book[p := PassedOn(book[p], row)];
      }
      NoDebt(book, row);
      HistoryEnds(book, log, row);
      UpwardEnds(old(book), book, h, row);
      ok := true;
    }

    /** `releasePeerLedger` on a live ledger: mark it, release its children, then settle with
        its parent.  The ledgers above it that are being released too are `doomed`. */
    method ReleaseLive(h: Handle, ghost doomed: set<Handle>)
      requires Releasing(book, doomed) && h in book && !book[h].released
      requires (forall y :: y in doomed ==> y < h) && (forall x :: x in book ==> x < next)
      modifies this`book
      ensures Releasing(book, doomed) && SameFamily(old(book), book)
      ensures forall x :: x in book ==> book[x] == AfterRelease(old(book), h, x)
      decreases next - h
    {
      hide Conserved, Funded, Linked, Rooted, Downward, AfterRelease, Line;
      ghost var done: set<Handle> := {};
      var todo := book[h].children;
      MarkKeeps(book, doomed, h);
      DownwardBegins(book, h);
      book := book[h := book[h].(released := true)];
      while todo != {}
        invariant Releasing(book, doomed + {h}) && Downward(old(book), book, h, done, todo)
        invariant h in book && book[h].children == todo && book[h].released
        invariant forall x :: x in book ==> x < next
        decreases |todo|
      {
        var c :| c in todo;
        ChildIsLive(book, doomed + {h}, h, c);
        ghost var b := book;
        DownwardFacts(old(book), book, h, done, todo);
        ReleaseLive(c, doomed + {h});
        DownwardStep(old(book), b, book, h, done, todo, c);
        DownwardFacts(old(book), book, h, done + {c}, todo - {c});
        done := done + {c};
        todo := todo - {c};
      }
      DownwardFacts(old(book), book, h, done, todo);
      SettleKeeps(book, doomed + {h}, h);
      DownwardEnds(old(book), book, doomed, h, done);
      assert doomed + {h} - {h} == doomed;
      var p := book[h].parent;
      if p.Some? && p.value in book {
        book := book[p.value := Surrendered(book[p.value], h, Minus(book[h].allotted, book[h].spent))];
      }
    }

    /** `releasePeerLedger`: `None` for an unknown handle, `false` when already released. */
    method Release(h: Handle) returns (r: Option<bool>)
      requires Valid()
      modifies this`book
      ensures Valid() && SameFamily(old(book), book)
      ensures r == if h !in old(book) then None else Some(!old(book)[h].released)
      ensures r == Some(true) ==> forall x :: x in book ==> book[x] == AfterRelease(old(book), h, x)
      ensures r != Some(true) ==> book == old(book)
    {
      if h !in book {
        return None;
      }
      if book[h].released {
        return Some(false);
      }
      hide Conserved, Funded, Linked, Rooted, History, Line;
      ReleaseLive(h, {});
      HistoryKept(old(book), book, log);
      r := Some(true);
    }

    /** `isPeerLedgerWithin`: walks up from the ledger's parent. */
    method IsWithin(h: Handle, ancestor: Handle) returns (r: bool)
      requires Valid()
      ensures r <==>
        && h in book && ancestor in book && !book[h].released && !book[ancestor].released
        && h != ancestor && Line(book, h, ancestor)
    {
      if h !in book || ancestor !in book || book[h].released || book[ancestor].released {
        return false;
      }
      var current := book[h].parent;
      if current.Some? {
        assert IsParent(book, current.value, h);
      }
      BookedOnce(book, h, ancestor);
      while current.Some?
        invariant current.Some? ==> current.value in book && current.value < h
        invariant (h != ancestor && Line(book, h, ancestor)) <==> (current.Some? && Line(book, current.value, ancestor))
        decreases if current.Some? then current.value + 1 else 0
      {
        if current.value == ancestor {
          return true;
        }
        if book[current.value].parent.Some? {
          assert IsParent(book, book[current.value].parent.value, current.value);
        }
        current := book[current.value].parent;
      }
      r := false;
    }
  }

  // -------------------------------------------------------------- laws of the book

  /** In a sound book a released ledger holds nothing and lists no one. */
  lemma ReleasedHoldsNothing(b: Book, h: Handle)
    requires Sound(b) && h in b && b[h].released
    ensures b[h].children == {} && b[h].reserved == ZERO
  {
    assert forall c :: c in b[h].children ==> IsParent(b, h, c) && Counted(b, {}, c);
    NothingReserved(b, h);
  }

  /** A live ledger has only live ancestors. */
  lemma {:induction false} AncestorsLive(b: Book, x: Handle, h: Handle)
    requires Sound(b) && x in b && !b[x].released && Line(b, x, h)
    ensures h in b && !b[h].released
    decreases x
  {
    if x != h {
      assert IsParent(b, b[x].parent.value, x);
      AncestorsLive(b, b[x].parent.value, h);
    }
  }

  /** Every row of a live subtree fits what its root was allotted: what is spent below it,
      and what its children may still spend. */
  lemma SpendingBounded(b: Book, log: Charges, h: Handle, d: Dim)
    requires Sound(b) && History(b, log, None, ZERO) && h in b
    ensures 0 <= SpentIn(b, log, h, d) <= SpentIn(b, log, h, d) + Sum(b[h].children, Unspent(b, d)) <= At(b[h].allotted, d)
  {
    hide Rooted, Linked, Conserved, Funded, History, Sum;
    SpentAt(b, log, h, d);
    ConservedAt(b, h, d);
    FundedAt(b, h, d);
  }
}
