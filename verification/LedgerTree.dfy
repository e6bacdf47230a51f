/**
 The arithmetic of a tree of budget ledgers.  A ledger holds what it was allotted, what
 was spent in its subtree and what its live children still hold in reserve; each of these
 is a row of three amounts, and every law holds in each dimension separately.
 */
module LedgerTree {
  import opened Limits
  import opened Options
  import opened Sums

  const MAX_U64 := 0xffff_ffff_ffff_ffff

  datatype Row = Row(cells: int, bytes: int, commands: int)

  datatype Dim = Cells | Bytes | Commands

  const ZERO := Row(0, 0, 0)

  function At(r: Row, d: Dim): int {
    match d
    case Cells => r.cells
    case Bytes => r.bytes
    case Commands => r.commands
  }

  function Plus(a: Row, b: Row): Row {
    Row(a.cells + b.cells, a.bytes + b.bytes, a.commands + b.commands)
  }

  function Minus(a: Row, b: Row): Row {
    Row(a.cells - b.cells, a.bytes - b.bytes, a.commands - b.commands)
  }

  predicate Leq(a: Row, b: Row) {
    a.cells <= b.cells && a.bytes <= b.bytes && a.commands <= b.commands
  }

  /** `checkU32` and `checkU64` on the three fields. */
  predicate Encodable(r: Row) {
    0 <= r.cells <= MAX_U32 && 0 <= r.bytes <= MAX_U64 && 0 <= r.commands <= MAX_U32
  }

  type Handle = nat

  datatype Ledger = Ledger(
    parent: Option<Handle>,
    allotted: Row,
    spent: Row,
    reserved: Row,
    directCells: int,
    released: bool,
    children: set<Handle>)

  type Book = map<Handle, Ledger>

  function Opened(parent: Option<Handle>, row: Row): Ledger {
    Ledger(parent, row, ZERO, ZERO, 0, false, {})
  }

  function Remaining(l: Ledger): Row {
    Minus(Minus(l.allotted, l.spent), l.reserved)
  }

  /** What a ledger would hand back to its parent. */
  function Unspent(b: Book, d: Dim): Handle -> int {
    (h: Handle) => if h in b then At(b[h].allotted, d) - At(b[h].spent, d) else 0
  }

  // -------------------------------------------------------------------- invariants

  predicate IsParent(b: Book, p: Handle, c: Handle) {
    c in b && b[c].parent == Some(p)
  }

  /** Parents are older than their children. */
  ghost predicate Rooted(b: Book) {
    forall p, c :: IsParent(b, p, c) ==> p in b && p < c
  }

  /** Not released, or marked by a release that has not settled it yet. */
  predicate Counted(b: Book, doomed: set<Handle>, c: Handle)
    requires c in b
  {
    !b[c].released || c in doomed
  }

  /** A ledger lists exactly its live children; a live ledger has a live parent.  During a
      release, ledgers already marked but not yet settled are `doomed`. */
  ghost predicate Linked(b: Book, doomed: set<Handle>) {
    && doomed <= b.Keys
    && (forall p, c :: p in b && c in b[p].children ==> IsParent(b, p, c) && Counted(b, doomed, c))
    && (forall p, c :: IsParent(b, p, c) && p in b && Counted(b, doomed, c) ==> c in b[p].children)
    && (forall p, c :: IsParent(b, p, c) && p in b && !b[c].released ==> Counted(b, doomed, p))
  }

  /** Reserved is the sum of what the children hold unspent, except that `open` is still to
      give up `owed`. */
  ghost predicate Conserved(b: Book, open: Option<Handle>, owed: Row) {
    forall h, d :: h in b ==>
      At(b[h].reserved, d) == Sum(b[h].children, Unspent(b, d)) + (if open == Some(h) then At(owed, d) else 0)
  }

  predicate Funded(b: Book) {
    forall h, d :: h in b ==>
      0 <= At(b[h].spent, d) && 0 <= At(b[h].reserved, d)
      && At(b[h].spent, d) + At(b[h].reserved, d) <= At(b[h].allotted, d)
  }

  ghost predicate Sound(b: Book) {
    Rooted(b) && Linked(b, {}) && Conserved(b, None, ZERO) && Funded(b)
  }

  // ----------------------------------------------------------- one ledger changes

  /** Nothing about the tree itself depends on amounts. */
  lemma SameShape(b: Book, h: Handle, l: Ledger, doomed: set<Handle>)
    requires h in b && l.parent == b[h].parent && l.children == b[h].children && l.released == b[h].released
    requires Rooted(b) && Linked(b, doomed)
    ensures Rooted(b[h := l]) && Linked(b[h := l], doomed)
  {
    var b' := b[h := l];
    assert forall p, c :: IsParent(b', p, c) <==> IsParent(b, p, c);
    assert forall c :: c in b ==> (Counted(b', doomed, c) <==> Counted(b, doomed, c));
    forall p, c | p in b' && c in b'[p].children ensures IsParent(b', p, c) && Counted(b', doomed, c) {
      assert p in b && c in b[p].children;
    }
  }

  /** The one ledger whose reserve covers `h`. */
  ghost predicate ListedByParent(b: Book, h: Handle)
    requires h in b
  {
    && (forall p :: p in b ==> (h in b[p].children <==> b[h].parent == Some(p)))
    && (b[h].parent.Some? ==> b[h].parent.value in b)
  }

  lemma LiveIsListed(b: Book, h: Handle, doomed: set<Handle>)
    requires Rooted(b) && Linked(b, doomed) && h in b && Counted(b, doomed, h)
    ensures ListedByParent(b, h)
  {
    forall p | p in b ensures h in b[p].children <==> b[h].parent == Some(p) {
      assert IsParent(b, p, h) <==> b[h].parent == Some(p);
    }
    if b[h].parent.Some? {
      assert IsParent(b, b[h].parent.value, h);
    }
  }

  // --------------------------------------------------------------------- charging

  function Charged(l: Ledger, row: Row): Ledger {
    l.(spent := Plus(l.spent, row), directCells := l.directCells + row.cells)
  }

  function PassedOn(l: Ledger, row: Row): Ledger {
    l.(spent := Plus(l.spent, row), reserved := Minus(l.reserved, row))
  }

  /** Spending at one ledger leaves its parent's reserve too large by the same amount;
      passing the charge on moves that discrepancy one level up. */
  lemma DebtMovesUp(b: Book, h: Handle, l: Ledger, open: Option<Handle>, row: Row)
    requires Conserved(b, open, row) && h in b && ListedByParent(b, h)
    requires l == if open == Some(h) then PassedOn(b[h], row) else Charged(b[h], row)
    requires open == None || open == Some(h)
    ensures Conserved(b[h := l], b[h].parent, row)
  {
    hide Conserved, Sum, ListedByParent, Unspent, PassedOn, Charged;
    var b' := b[h := l];
    forall p, d | p in b'
      ensures At(b'[p].reserved, d)
        == Sum(b'[p].children, Unspent(b', d)) + (if b[h].parent == Some(p) then At(row, d) else 0)
    {
      DebtAt(b, h, l, open, row, p, d);
    }
    ConservedIs(b', b[h].parent, row);
  }

  lemma ConservedAt(b: Book, h: Handle, d: Dim)
    requires Conserved(b, None, ZERO) && h in b
    ensures At(b[h].reserved, d) == Sum(b[h].children, Unspent(b, d))
  {
  }

  lemma OwedAt(b: Book, open: Option<Handle>, owed: Row, h: Handle, d: Dim)
    requires Conserved(b, open, owed) && h in b
    ensures At(b[h].reserved, d) == Sum(b[h].children, Unspent(b, d)) + (if open == Some(h) then At(owed, d) else 0)
  {
  }

  lemma SumOfNone(f: nat -> int)
    ensures Sum({}, f) == 0
  {
  }

  lemma ConservedIs(b: Book, open: Option<Handle>, owed: Row)
    requires forall h, d :: h in b ==>
      At(b[h].reserved, d) == Sum(b[h].children, Unspent(b, d)) + (if open == Some(h) then At(owed, d) else 0)
    ensures Conserved(b, open, owed)
  {
  }

  lemma DebtAt(b: Book, h: Handle, l: Ledger, open: Option<Handle>, row: Row, p: Handle, d: Dim)
    requires Conserved(b, open, row) && h in b && ListedByParent(b, h) && p in b
    requires l == if open == Some(h) then PassedOn(b[h], row) else Charged(b[h], row)
    requires open == None || open == Some(h)
    ensures At(b[h := l][p].reserved, d)
      == Sum(b[h := l][p].children, Unspent(b[h := l], d)) + (if b[h].parent == Some(p) then At(row, d) else 0)
  {
    hide Conserved, Sum;
    SumChange(b[p].children, Unspent(b, d), Unspent(b[h := l], d), h);
    OwedAt(b, open, row, p, d);
  }

  /** The state in which a charge has reached `open` and still has to be booked there. */
  ghost predicate Climbing(b: Book, open: Option<Handle>, row: Row) {
    Rooted(b) && Linked(b, {}) && Conserved(b, open, row) && Funded(b)
  }

  lemma ChargeOpens(b: Book, h: Handle, row: Row)
    requires Sound(b) && h in b && !b[h].released && Encodable(row) && Leq(row, Remaining(b[h]))
    ensures Climbing(b[h := Charged(b[h], row)], b[h].parent, row)
  {
    hide Conserved, Linked, Rooted, Funded;
    SameShape(b, h, Charged(b[h], row), {});
    LiveIsListed(b, h, {});
    NoDebt(b, row);
    DebtMovesUp(b, h, Charged(b[h], row), None, row);
    Spends(b, h, row);
  }

  lemma NoDebt(b: Book, row: Row)
    ensures Conserved(b, None, ZERO) <==> Conserved(b, None, row)
  {
  }

  lemma Spends(b: Book, h: Handle, row: Row)
    requires Funded(b) && h in b && Encodable(row) && Leq(row, Remaining(b[h]))
    ensures Funded(b[h := Charged(b[h], row)])
  {
  }

  lemma ChargeClimbs(b: Book, p: Handle, row: Row)
    requires Climbing(b, Some(p), row) && Encodable(row) && p in b && !b[p].released
    ensures Climbing(b[p := PassedOn(b[p], row)], b[p].parent, row)
  {
    hide Conserved, Linked, Rooted, Funded;
    SameShape(b, p, PassedOn(b[p], row), {});
    LiveIsListed(b, p, {});
    DebtMovesUp(b, p, PassedOn(b[p], row), Some(p), row);
    ReserveCovers(b, p, row);
  }

  lemma ReserveCovers(b: Book, p: Handle, row: Row)
    requires Climbing(b, Some(p), row) && Encodable(row) && p in b
    ensures Funded(b[p := PassedOn(b[p], row)])
  {
    hide Linked, Rooted, Conserved, Sum;
    var b' := b[p := PassedOn(b[p], row)];
    forall h, d | h in b'
      ensures 0 <= At(b'[h].spent, d) && 0 <= At(b'[h].reserved, d)
        && At(b'[h].spent, d) + At(b'[h].reserved, d) <= At(b'[h].allotted, d)
    {
      ChildrenHold(b, p, d);
      OwedAt(b, Some(p), row, p, d);
    }
  }

  lemma ChildrenHold(b: Book, p: Handle, d: Dim)
    requires Funded(b) && Linked(b, {}) && p in b
    ensures Sum(b[p].children, Unspent(b, d)) >= 0
  {
    SumNonNegative(b[p].children, Unspent(b, d));
  }

  // -------------------------------------------------------------------- reserving

  function Reserving(l: Ledger, child: Handle, row: Row): Ledger {
    l.(reserved := Plus(l.reserved, row), children := l.children + {child})
  }

  lemma NewIsUnlisted(b: Book, n: Handle)
    requires Linked(b, {}) && n !in b
    ensures forall q :: q in b ==> n !in b[q].children
  {
    forall q | q in b ensures n !in b[q].children {
      assert !IsParent(b, q, n);
    }
  }

  lemma ReserveKeeps(b: Book, p: Handle, n: Handle, row: Row)
    requires Sound(b) && p in b && !b[p].released && n !in b && p < n
    requires Encodable(row) && Leq(row, Remaining(b[p]))
    ensures Sound(b[p := Reserving(b[p], n, row)][n := Opened(Some(p), row)])
  {
    hide Conserved, Rooted, Linked, Funded;
    var b' := b[p := Reserving(b[p], n, row)][n := Opened(Some(p), row)];
    ReserveShape(b, p, n, row);
    ReserveFunds(b, p, n, row);
    NewIsUnlisted(b, n);
    forall h, d | h in b'
      ensures At(b'[h].reserved, d) == Sum(b'[h].children, Unspent(b', d)) + (if None == Some(h) then At(ZERO, d) else 0)
    {
      ReserveAt(b, p, n, row, h, d);
    }
    ConservedIs(b', None, ZERO);
  }

  lemma ReserveFunds(b: Book, p: Handle, n: Handle, row: Row)
    requires Funded(b) && p in b && n !in b && Encodable(row) && Leq(row, Remaining(b[p]))
    ensures Funded(b[p := Reserving(b[p], n, row)][n := Opened(Some(p), row)])
  {
  }

  lemma ReserveShape(b: Book, p: Handle, n: Handle, row: Row)
    requires Rooted(b) && Linked(b, {}) && p in b && !b[p].released && n !in b && p < n
    ensures var b' := b[p := Reserving(b[p], n, row)][n := Opened(Some(p), row)]; Rooted(b') && Linked(b', {})
  {
    var b' := b[p := Reserving(b[p], n, row)][n := Opened(Some(p), row)];
    NewIsUnlisted(b, n);
    forall q: Handle, c: Handle
      ensures IsParent(b', q, c) <==> IsParent(b, q, c) || (q == p && c == n)
    {
    }
    forall q: Handle, c: Handle | q in b' && c in b'[q].children
      ensures IsParent(b', q, c) && Counted(b', {}, c)
    {
      assert (q == p && c == n) || (q in b && c in b[q].children);
    }
    forall q: Handle, c: Handle | IsParent(b', q, c) && q in b' && Counted(b', {}, c)
      ensures c in b'[q].children
    {
      if c != n {
        assert IsParent(b, q, c) && Counted(b, {}, c);
      }
    }
  }

  lemma ReserveAt(b: Book, p: Handle, n: Handle, row: Row, h: Handle, d: Dim)
    requires Conserved(b, None, ZERO) && p in b && n !in b && (h in b || h == n)
    requires forall q :: q in b ==> n !in b[q].children
    ensures var b' := b[p := Reserving(b[p], n, row)][n := Opened(Some(p), row)];
      At(b'[h].reserved, d) == Sum(b'[h].children, Unspent(b', d))
  {
    var b' := b[p := Reserving(b[p], n, row)][n := Opened(Some(p), row)];
    hide Conserved, Sum, Unspent;
    forall x
      ensures Unspent(b', d)(x) == if x == n then At(row, d) else Unspent(b, d)(x)
    {
      ReserveUnspent(b, p, n, row, d, x);
    }
    if h == n {
      SumOfNone(Unspent(b', d));
    } else {
      ConservedAt(b, h, d);
      SumChange(b[h].children, Unspent(b, d), Unspent(b', d), n);
      if h == p {
        SumAdd(b[p].children, Unspent(b', d), n);
      }
    }
  }

  lemma ReserveUnspent(b: Book, p: Handle, n: Handle, row: Row, d: Dim, x: Handle)
    requires p in b && n !in b
    ensures var b' := b[p := Reserving(b[p], n, row)][n := Opened(Some(p), row)];
      Unspent(b', d)(x) == if x == n then At(row, d) else Unspent(b, d)(x)
  {
  }

  lemma CreateKeeps(b: Book, n: Handle, row: Row)
    requires Sound(b) && n !in b && Encodable(row)
    ensures Sound(b[n := Opened(None, row)])
  {
    hide Conserved, Rooted, Linked, Funded, Sum;
    var b' := b[n := Opened(None, row)];
    CreateShape(b, n, row);
    CreateFunds(b, n, row);
    NewIsUnlisted(b, n);
    forall h, d | h in b'
      ensures At(b'[h].reserved, d) == Sum(b'[h].children, Unspent(b', d)) + (if None == Some(h) then At(ZERO, d) else 0)
    {
      CreateAt(b, n, row, h, d);
    }
    ConservedIs(b', None, ZERO);
  }

  lemma CreateFunds(b: Book, n: Handle, row: Row)
    requires Funded(b) && n !in b && Encodable(row)
    ensures Funded(b[n := Opened(None, row)])
  {
  }

  lemma CreateShape(b: Book, n: Handle, row: Row)
    requires Rooted(b) && Linked(b, {}) && n !in b
    ensures Rooted(b[n := Opened(None, row)]) && Linked(b[n := Opened(None, row)], {})
  {
    var b' := b[n := Opened(None, row)];
    forall q: Handle, c: Handle
      ensures IsParent(b', q, c) <==> IsParent(b, q, c)
    {
    }
    forall q: Handle, c: Handle | q in b' && c in b'[q].children
      ensures IsParent(b', q, c) && Counted(b', {}, c)
    {
      assert q in b && c in b[q].children;
    }
    forall q: Handle, c: Handle | IsParent(b', q, c) && q in b' && Counted(b', {}, c)
      ensures c in b'[q].children
    {
      assert IsParent(b, q, c) && Counted(b, {}, c);
    }
  }

  lemma CreateAt(b: Book, n: Handle, row: Row, h: Handle, d: Dim)
    requires Conserved(b, None, ZERO) && n !in b && (h in b || h == n)
    requires forall q :: q in b ==> n !in b[q].children
    ensures var b' := b[n := Opened(None, row)];
      At(b'[h].reserved, d) == Sum(b'[h].children, Unspent(b', d))
  {
    hide Conserved, Sum;
    var b' := b[n := Opened(None, row)];
    if h == n {
      SumOfNone(Unspent(b', d));
    } else {
      ConservedAt(b, h, d);
      SumChange(b[h].children, Unspent(b, d), Unspent(b', d), n);
    }
  }

  // -------------------------------------------------------------------- releasing

  /** The laws in the middle of a release. */
  ghost predicate Releasing(b: Book, doomed: set<Handle>) {
    Rooted(b) && Linked(b, doomed) && Conserved(b, None, ZERO) && Funded(b)
  }

  lemma MarkKeeps(b: Book, doomed: set<Handle>, h: Handle)
    requires Releasing(b, doomed) && h in b && Counted(b, doomed, h)
    ensures Releasing(b[h := b[h].(released := true)], doomed + {h})
  {
    hide Conserved, Linked, Rooted, Funded, Sum;
    var b' := b[h := b[h].(released := true)];
    MarkFunds(b, h);
    MarkShape(b, doomed, h);
    forall p, d | p in b'
      ensures At(b'[p].reserved, d) == Sum(b'[p].children, Unspent(b', d)) + (if None == Some(p) then At(ZERO, d) else 0)
    {
      MarkAt(b, h, p, d);
    }
    ConservedIs(b', None, ZERO);
  }

  lemma MarkFunds(b: Book, h: Handle)
    requires Funded(b) && h in b
    ensures Funded(b[h := b[h].(released := true)])
  {
  }

  lemma MarkShape(b: Book, doomed: set<Handle>, h: Handle)
    requires Rooted(b) && Linked(b, doomed) && h in b && Counted(b, doomed, h)
    ensures var b' := b[h := b[h].(released := true)]; Rooted(b') && Linked(b', doomed + {h})
  {
    var b' := b[h := b[h].(released := true)];
    assert forall q, c :: IsParent(b', q, c) <==> IsParent(b, q, c);
  }

  lemma MarkAt(b: Book, h: Handle, p: Handle, d: Dim)
    requires Conserved(b, None, ZERO) && h in b && p in b
    ensures var b' := b[h := b[h].(released := true)];
      At(b'[p].reserved, d) == Sum(b'[p].children, Unspent(b', d))
  {
    hide Conserved, Sum;
    ConservedAt(b, p, d);
    SumChange(b[p].children, Unspent(b, d), Unspent(b[h := b[h].(released := true)], d), h);
  }

  function Surrendered(l: Ledger, h: Handle, back: Row): Ledger {
    l.(reserved := Minus(l.reserved, back), children := l.children - {h})
  }

  /** The book after a marked ledger without children has settled with its parent. */
  function Settle(b: Book, h: Handle): Book
    requires h in b
  {
    var p := b[h].parent;
    if p.None? || p.value !in b then b
    else b[p.value := Surrendered(b[p.value], h, Minus(b[h].allotted, b[h].spent))]
  }

  lemma SettleKeeps(b: Book, doomed: set<Handle>, h: Handle)
    requires Releasing(b, doomed) && h in doomed && b[h].released && b[h].children == {}
    ensures Releasing(Settle(b, h), doomed - {h})
  {
    hide Conserved, Funded, Rooted, Linked, Sum, Settle;
    DoomedInBook(b, doomed, h);
    var b' := Settle(b, h);
    SettleShape(b, doomed, h);
    LiveIsListed(b, h, doomed);
    forall p, d | p in b'
      ensures At(b'[p].reserved, d) == Sum(b'[p].children, Unspent(b', d)) + (if None == Some(p) then At(ZERO, d) else 0)
    {
      SettleAt(b, h, p, d);
    }
    ConservedIs(b', None, ZERO);
    SettleFunds(b, doomed, h);
  }

  lemma DoomedInBook(b: Book, doomed: set<Handle>, h: Handle)
    requires Linked(b, doomed) && h in doomed
    ensures h in b
  {
  }

  lemma SettleShape(b: Book, doomed: set<Handle>, h: Handle)
    requires Rooted(b) && Linked(b, doomed) && h in doomed && b[h].released && b[h].children == {}
    ensures Rooted(Settle(b, h)) && Linked(Settle(b, h), doomed - {h})
  {
    LiveIsListed(b, h, doomed);
    var b' := Settle(b, h);
    assert forall q, c :: IsParent(b', q, c) <==> IsParent(b, q, c);
    assert forall c :: IsParent(b, h, c) ==> b[c].released;
    forall p, c | p in b' && c in b'[p].children
      ensures IsParent(b', p, c) && Counted(b', doomed - {h}, c)
    {
      assert c in b[p].children;
    }
  }

  lemma SettleAt(b: Book, h: Handle, p: Handle, d: Dim)
    requires Conserved(b, None, ZERO) && h in b && ListedByParent(b, h) && p in Settle(b, h)
    ensures p in b && At(Settle(b, h)[p].reserved, d) == Sum(Settle(b, h)[p].children, Unspent(Settle(b, h), d))
  {
    hide Conserved, Sum;
    ConservedAt(b, p, d);
    var q := b[h].parent;
    if q.Some? {
      SumChange(b[p].children, Unspent(b, d), Unspent(Settle(b, h), d), q.value);
      if q.value == p {
        SumRemove(b[p].children, Unspent(b, d), h);
        SumChange(b[p].children - {h}, Unspent(b, d), Unspent(Settle(b, h), d), p);
      }
    }
  }

  lemma SettleFunds(b: Book, doomed: set<Handle>, h: Handle)
    requires Releasing(b, doomed) && h in doomed
    ensures Funded(Settle(b, h))
  {
    LiveIsListed(b, h, doomed);
    hide Conserved, Linked, Rooted, Sum;
    var q := b[h].parent;
    if q.Some? {
      forall d ensures At(b[q.value].reserved, d) >= At(b[h].allotted, d) - At(b[h].spent, d) >= 0 {
        SumNonNegative(b[q.value].children, Unspent(b, d));
        ConservedAt(b, q.value, d);
        assert Unspent(b, d)(h) <= Sum(b[q.value].children, Unspent(b, d));
      }
    }
  }

  // --------------------------------------------------------------------- ancestry

  /** `h` is `x` or one of its ancestors. */
  ghost predicate Line(b: Book, x: Handle, h: Handle)
    decreases x
  {
    x == h || (x in b && b[x].parent.Some? && b[x].parent.value < x && Line(b, b[x].parent.value, h))
  }

  ghost predicate SameFamily(b: Book, b': Book) {
    b.Keys == b'.Keys && forall x :: x in b ==> b'[x].parent == b[x].parent
  }

  lemma {:induction false} LineOlder(b: Book, x: Handle, h: Handle)
    requires Line(b, x, h)
    ensures h <= x
    decreases x
  {
    if x != h {
      LineOlder(b, b[x].parent.value, h);
    }
  }

  /** Ancestry depends on parents alone, and new ledgers do not change it. */
  lemma {:induction false} LineKept(b: Book, b': Book, x: Handle, h: Handle)
    requires x in b && Rooted(b) && b.Keys <= b'.Keys && forall y :: y in b ==> b'[y].parent == b[y].parent
    ensures Line(b', x, h) <==> Line(b, x, h)
    decreases x
  {
    if x != h && b[x].parent.Some? {
      assert IsParent(b, b[x].parent.value, x);
      LineKept(b, b', b[x].parent.value, h);
    }
  }

  /** The child of `h` on the way down to a live descendant is itself a listed child. */
  lemma {:induction false} WayDown(b: Book, doomed: set<Handle>, x: Handle, h: Handle) returns (c: Handle)
    requires Rooted(b) && Linked(b, doomed) && x in b && h in b && !b[x].released && x != h && Line(b, x, h)
    requires forall y :: y in doomed ==> y <= h
    ensures c in b[h].children && Line(b, x, c)
    decreases x
  {
    var p := b[x].parent.value;
    assert IsParent(b, p, x);
    if p == h {
      c := x;
    } else {
      LineOlder(b, p, h);
      c := WayDown(b, doomed, p, h);
    }
  }

  // ----------------------------------------------------------------- spending history

  type Charges = seq<(Handle, Row)>

  /** All charges ever made at `h` or below it. */
  ghost function SpentIn(b: Book, log: Charges, h: Handle, d: Dim): int {
    if log == [] then 0 else
    var (x, row) := log[|log| - 1];
    SpentIn(b, log[..|log| - 1], h, d) + (if Line(b, x, h) then At(row, d) else 0)
  }

  ghost predicate Known(b: Book, log: Charges) {
    forall i :: 0 <= i < |log| ==> log[i].0 in b
  }

  lemma {:induction false} SpentKept(b: Book, b': Book, log: Charges, h: Handle, d: Dim)
    requires Known(b, log) && Rooted(b) && b.Keys <= b'.Keys && forall y :: y in b ==> b'[y].parent == b[y].parent
    ensures SpentIn(b', log, h, d) == SpentIn(b, log, h, d)
  {
    if log != [] {
      SpentKept(b, b', log[..|log| - 1], h, d);
      LineKept(b, b', log[|log| - 1].0, h);
    }
  }

  /** Nothing was charged at or below a ledger that did not exist. */
  lemma {:induction false} NothingSpent(b: Book, log: Charges, n: Handle, d: Dim)
    requires Known(b, log) && forall x :: x in b ==> x < n
    ensures SpentIn(b, log, n, d) == 0
  {
    if log != [] {
      NothingSpent(b, log[..|log| - 1], n, d);
      var x := log[|log| - 1].0;
      if Line(b, x, n) {
        LineOlder(b, x, n);
      }
    }
  }

  /** What is spent at every ledger is what was charged in its subtree, except for a charge
      that has still to be booked at `open` and above. */
  ghost predicate History(b: Book, log: Charges, open: Option<Handle>, row: Row) {
    && Known(b, log)
    && (forall h, d :: h in b ==>
          At(b[h].spent, d) + (if open.Some? && Line(b, open.value, h) then At(row, d) else 0) == SpentIn(b, log, h, d))
  }

  lemma SpentAt(b: Book, log: Charges, h: Handle, d: Dim)
    requires History(b, log, None, ZERO) && h in b
    ensures At(b[h].spent, d) == SpentIn(b, log, h, d)
  {
  }

  lemma FundedAt(b: Book, h: Handle, d: Dim)
    requires Funded(b) && h in b
    ensures 0 <= At(b[h].spent, d) && 0 <= At(b[h].reserved, d)
    ensures At(b[h].spent, d) + At(b[h].reserved, d) <= At(b[h].allotted, d)
  {
  }

  lemma HistoryOpens(b: Book, log: Charges, h: Handle, row: Row)
    requires Rooted(b) && History(b, log, None, ZERO) && h in b
    ensures History(b[h := Charged(b[h], row)], log + [(h, row)], b[h].parent, row)
  {
    var b' := b[h := Charged(b[h], row)];
    var log' := log + [(h, row)];
    forall x, d | x in b'
      ensures At(b'[x].spent, d) + (if b[h].parent.Some? && Line(b', b[h].parent.value, x) then At(row, d) else 0)
        == SpentIn(b', log', x, d)
    {
      assert log'[..|log'| - 1] == log;
      SpentKept(b, b', log, x, d);
      if b[h].parent.Some? {
        assert IsParent(b, b[h].parent.value, h);
      }
      BookedOnce(b', h, x);
      assert At(b[x].spent, d) == SpentIn(b, log, x, d);
    }
  }

  /** A ledger is not among its own ancestors. */
  lemma BookedOnce(b: Book, h: Handle, x: Handle)
    requires h in b && (b[h].parent.Some? ==> b[h].parent.value < h)
    ensures Line(b, h, x) <==> x == h || (b[h].parent.Some? && Line(b, b[h].parent.value, x))
    ensures b[h].parent.Some? && Line(b, b[h].parent.value, x) ==> x != h
  {
    if b[h].parent.Some? && Line(b, b[h].parent.value, x) {
      LineOlder(b, b[h].parent.value, x);
    }
  }

  lemma HistoryClimbs(b: Book, log: Charges, p: Handle, row: Row)
    requires Rooted(b) && History(b, log, Some(p), row) && p in b
    ensures History(b[p := PassedOn(b[p], row)], log, b[p].parent, row)
  {
    var b' := b[p := PassedOn(b[p], row)];
    forall x, d | x in b'
      ensures At(b'[x].spent, d) + (if b[p].parent.Some? && Line(b', b[p].parent.value, x) then At(row, d) else 0)
        == SpentIn(b', log, x, d)
    {
      SpentKept(b, b', log, x, d);
      if b[p].parent.Some? {
        assert IsParent(b, b[p].parent.value, p);
        LineKept(b, b', b[p].parent.value, x);
      }
      BookedOnce(b, p, x);
      assert At(b[x].spent, d) + (if Line(b, p, x) then At(row, d) else 0) == SpentIn(b, log, x, d);
    }
  }

  /** New ledgers start with a clean history and leave the others alone. */
  lemma HistoryGrows(b: Book, b': Book, log: Charges, n: Handle)
    requires Rooted(b) && History(b, log, None, ZERO) && n !in b && (forall x :: x in b ==> x < n)
    requires b'.Keys == b.Keys + {n} && b'[n].spent == ZERO
    requires forall x :: x in b ==> b'[x].parent == b[x].parent && b'[x].spent == b[x].spent
    ensures History(b', log, None, ZERO)
  {
    forall x, d | x in b' ensures At(b'[x].spent, d) == SpentIn(b', log, x, d) {
      SpentKept(b, b', log, x, d);
      if x == n {
        NothingSpent(b, log, n, d);
      } else {
        assert At(b[x].spent, d) == SpentIn(b, log, x, d);
      }
    }
  }

  lemma HistoryKept(b: Book, b': Book, log: Charges)
    requires Rooted(b) && History(b, log, None, ZERO) && SameFamily(b, b')
    requires forall x :: x in b ==> b'[x].spent == b[x].spent
    ensures History(b', log, None, ZERO)
  {
    forall x, d | x in b' ensures At(b'[x].spent, d) == SpentIn(b', log, x, d) {
      SpentKept(b, b', log, x, d);
      assert At(b[x].spent, d) == SpentIn(b, log, x, d);
    }
  }
}
