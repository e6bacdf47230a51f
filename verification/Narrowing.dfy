/**
 Narrowing a batch of live ledgers: each keeps its handle and gives part of what it was
 allotted back to its parent.  The whole batch is one downward negotiation, so a parent
 and its descendants may be narrowed together.
 */
module Narrowing {
  import opened Options
  import opened LedgerTree
  import opened Sums
  import opened PeerLedger
  import MemoryTree
  import PeerMemory

  datatype Plan = Plan(handle: Handle, row: Row)

  function GivenBack(b: Book, plan: Plan): Row
    requires plan.handle in b
  {
    Minus(b[plan.handle].allotted, plan.row)
  }

  /** One plan published. */
  function NarrowOne(b: Book, plan: Plan): Book
    requires plan.handle in b
  {
    var h := plan.handle;
    var b1 := b[h := b[h].(allotted := plan.row)];
    if b[h].parent.Some? && b[h].parent.value in b then
      var p := b[h].parent.value;
      b1[p := b1[p].(reserved := Minus(b1[p].reserved, GivenBack(b, plan)))]
    else b1
  }

  predicate Named(b: Book, plans: seq<Plan>) {
    forall i :: 0 <= i < |plans| ==> plans[i].handle in b
  }

  /** All plans published, in order. */
  function Narrowed(b: Book, plans: seq<Plan>): (r: Book)
    requires Named(b, plans)
    ensures r.Keys == b.Keys
  {
    if plans == [] then b else NarrowOne(Narrowed(b, plans[..|plans| - 1]), plans[|plans| - 1])
  }

  /** What the planned children of `p` give back. */
  function ReturnedTo(b: Book, plans: seq<Plan>, p: Handle): Row
    requires Named(b, plans)
  {
    if plans == [] then ZERO else
    var last := plans[|plans| - 1];
    Plus(ReturnedTo(b, plans[..|plans| - 1], p),
         if b[last.handle].parent == Some(p) then GivenBack(b, last) else ZERO)
  }

  /** Every handle is live and named once, and nothing grows. */
  ghost predicate Acceptable(b: Book, plans: seq<Plan>) {
    && Named(b, plans)
    && (forall i :: 0 <= i < |plans| ==>
          && !b[plans[i].handle].released && Encodable(plans[i].row)
          && Leq(plans[i].row, b[plans[i].handle].allotted))
    && (forall i, j :: 0 <= i < j < |plans| ==> plans[i].handle != plans[j].handle)
  }

  /** No ledger holds more in spending and reserve than it is allotted. */
  predicate Fits(b: Book, h: Handle)
    requires h in b
  {
    Leq(Plus(b[h].spent, b[h].reserved), b[h].allotted)
  }

  ghost predicate InBudget(b: Book) {
    forall h :: h in b ==> Fits(b, h)
  }

  /** When a batch may be published: the rows are acceptable and the narrowed tree still
      fits everywhere. */
  ghost predicate MayNarrow(b: Book, plans: seq<Plan>) {
    Acceptable(b, plans) && InBudget(Narrowed(b, plans))
  }

  lemma AcceptablePrefix(b: Book, plans: seq<Plan>, n: nat)
    requires Acceptable(b, plans) && n <= |plans|
    ensures Acceptable(b, plans[..n])
  {
  }

  /** The same in numbers: every named ledger is live, is named once, and is to be allotted
      an encodable row that is no larger; afterwards no ledger has spent and reserved more
      than it is allotted. */
  lemma MayNarrowIs(b: Book, plans: seq<Plan>)
    requires Named(b, plans)
    ensures MayNarrow(b, plans) <==>
      && (forall i :: 0 <= i < |plans| ==> !b[plans[i].handle].released && Encodable(plans[i].row))
      && (forall i :: 0 <= i < |plans| ==> NoLarger(plans[i].row, b[plans[i].handle].allotted))
      && (forall i, j :: 0 <= i < j < |plans| ==> plans[i].handle != plans[j].handle)
      && (forall h :: h in b ==> FitsIn(Narrowed(b, plans), h))
  {
    hide Narrowed, Encodable, Leq, Fits, NoLarger, FitsIn;
    forall i | 0 <= i < |plans|
      ensures Leq(plans[i].row, b[plans[i].handle].allotted) <==> NoLarger(plans[i].row, b[plans[i].handle].allotted)
    {
      LeqIs(plans[i].row, b[plans[i].handle].allotted);
    }
    forall h | h in b ensures Fits(Narrowed(b, plans), h) <==> FitsIn(Narrowed(b, plans), h) {
      FitsIs(Narrowed(b, plans), h);
    }
  }

  predicate NoLarger(a: Row, c: Row) {
    forall d :: At(a, d) <= At(c, d)
  }

  predicate FitsIn(b: Book, h: Handle)
    requires h in b
  {
    forall d :: At(b[h].spent, d) + At(b[h].reserved, d) <= At(b[h].allotted, d)
  }

  lemma FitsIs(b: Book, h: Handle)
    requires h in b
    ensures Fits(b, h) <==> FitsIn(b, h)
  {
    LeqIs(Plus(b[h].spent, b[h].reserved), b[h].allotted);
  }

  lemma LeqIs(a: Row, c: Row)
    ensures Leq(a, c) <==> NoLarger(a, c)
  {
    assert At(a, Cells) == a.cells && At(a, Bytes) == a.bytes && At(a, Commands) == a.commands;
    assert At(c, Cells) == c.cells && At(c, Bytes) == c.bytes && At(c, Commands) == c.commands;
  }

  // --------------------------------------------------------- what narrowing changes

  /** What `x` is allotted afterwards. */
  function Target(b: Book, plans: seq<Plan>, x: Handle): Row
    requires x in b
  {
    if plans == [] then b[x].allotted
    else if plans[|plans| - 1].handle == x then plans[|plans| - 1].row
    else Target(b, plans[..|plans| - 1], x)
  }

  lemma {:induction false} TargetPlanned(b: Book, plans: seq<Plan>, i: nat)
    requires Acceptable(b, plans) && i < |plans|
    ensures Target(b, plans, plans[i].handle) == plans[i].row
  {
    if i < |plans| - 1 {
      AcceptablePrefix(b, plans, |plans| - 1);
      TargetPlanned(b, plans[..|plans| - 1], i);
    }
  }

  lemma {:induction false} TargetUnplanned(b: Book, plans: seq<Plan>, x: Handle)
    requires x in b && forall i :: 0 <= i < |plans| ==> plans[i].handle != x
    ensures Target(b, plans, x) == b[x].allotted
  {
    if plans != [] {
      TargetUnplanned(b, plans[..|plans| - 1], x);
    }
  }

  lemma NarrowOneIs(b: Book, plan: Plan, x: Handle)
    requires plan.handle in b && x in b && b[plan.handle].parent != Some(plan.handle)
    ensures NarrowOne(b, plan).Keys == b.Keys
    ensures NarrowOne(b, plan)[x] == b[x].(
      allotted := if x == plan.handle then plan.row else b[x].allotted,
      reserved := if b[plan.handle].parent == Some(x) then Minus(b[x].reserved, GivenBack(b, plan)) else b[x].reserved)
  {
  }

  lemma NarrowedStep(b: Book, b1: Book, plan: Plan, x: Handle, target: Row, back: Row)
    requires x in b && plan.handle in b && b1.Keys == b.Keys && b[plan.handle].parent != Some(plan.handle)
    requires b1[x] == b[x].(allotted := target, reserved := Minus(b[x].reserved, back))
    requires b1[plan.handle].allotted == b[plan.handle].allotted && b1[plan.handle].parent == b[plan.handle].parent
    ensures NarrowOne(b1, plan)[x] == b[x].(
      allotted := if x == plan.handle then plan.row else target,
      reserved := Minus(b[x].reserved, Plus(back, if b[plan.handle].parent == Some(x) then GivenBack(b, plan) else ZERO)))
  {
    NarrowOneIs(b1, plan, x);
  }

  /** Closed form of the narrowed book. */
  lemma {:induction false} NarrowedIs(b: Book, plans: seq<Plan>, x: Handle)
    requires Rooted(b) && Acceptable(b, plans) && x in b
    ensures Narrowed(b, plans)[x]
      == b[x].(allotted := Target(b, plans, x), reserved := Minus(b[x].reserved, ReturnedTo(b, plans, x)))
  {
    if plans != [] {
      var n := |plans| - 1;
      var front, h := plans[..n], plans[n].handle;
      AcceptablePrefix(b, plans, n);
      assert forall i :: 0 <= i < n ==> front[i].handle != h;
      hide Rooted, NarrowOne, Acceptable, GivenBack, Plus, Minus;
      NarrowedIs(b, front, x);
      NarrowedIs(b, front, h);
      TargetUnplanned(b, front, h);
      if b[h].parent.Some? {
        ParentIsOlder(b, h);
      }
      NarrowedStep(b, Narrowed(b, front), plans[n], x, Target(b, front, x), ReturnedTo(b, front, x));
    }
  }

  // ----------------------------------------------------------- conservation survives

  /** One plan keeps every sum exact: the child holds less, the parent reserves less. */
  lemma NarrowOneConserves(b: Book, plan: Plan)
    requires Rooted(b) && Linked(b, {}) && Conserved(b, None, ZERO)
    requires plan.handle in b && !b[plan.handle].released
    ensures var b' := NarrowOne(b, plan); Rooted(b') && Linked(b', {}) && Conserved(b', None, ZERO)
  {
    hide Conserved, Linked, Rooted;
    var h := plan.handle;
    var b' := NarrowOne(b, plan);
    LiveIsListed(b, h, {});
    SameShape(b, h, b[h].(allotted := plan.row), {});
    if b[h].parent.Some? {
      var b1 := b[h := b[h].(allotted := plan.row)];
      var p := b[h].parent.value;
      SameShape(b1, p, b1[p].(reserved := Minus(b1[p].reserved, GivenBack(b, plan))), {});
      ParentIsOlder(b, h);
    }
    forall x, d | x in b'
      ensures At(b'[x].reserved, d) == Sum(b'[x].children, Unspent(b', d)) + (if None == Some(x) then At(ZERO, d) else 0)
    {
      NarrowOneAt(b, plan, x, d);
    }
    ConservedIs(b', None, ZERO);
  }

  lemma NarrowOneAt(b: Book, plan: Plan, x: Handle, d: Dim)
    requires Conserved(b, None, ZERO) && plan.handle in b && ListedByParent(b, plan.handle) && x in b
    requires b[plan.handle].parent != Some(plan.handle)
    ensures At(NarrowOne(b, plan)[x].reserved, d) == Sum(b[x].children, Unspent(NarrowOne(b, plan), d))
  {
    hide NarrowOne, Conserved;
    var h := plan.handle;
    var b' := NarrowOne(b, plan);
    forall y | y in b {
      NarrowOneIs(b, plan, y);
    }
    NarrowOneIs(b, plan, h);
    SumChange(b[x].children, Unspent(b, d), Unspent(b', d), h);
    ConservedAt(b, x, d);
  }

  lemma {:induction false} NarrowedConserves(b: Book, plans: seq<Plan>)
    requires Rooted(b) && Linked(b, {}) && Conserved(b, None, ZERO) && Acceptable(b, plans)
    ensures var b' := Narrowed(b, plans); Rooted(b') && Linked(b', {}) && Conserved(b', None, ZERO)
  {
    hide Conserved, Linked, Rooted;
    if plans != [] {
      var n := |plans| - 1;
      AcceptablePrefix(b, plans, n);
      NarrowedConserves(b, plans[..n]);
      NarrowedIs(b, plans[..n], plans[n].handle);
      NarrowOneConserves(Narrowed(b, plans[..n]), plans[n]);
    }
  }

  /** In a tree that fits its budget everywhere, no reserve is negative: the youngest
      ledgers reserve nothing, and each reserve is a sum of what younger ones hold. */
  lemma {:induction false} ReservesArePositive(b: Book, h: Handle, bound: Handle, d: Dim)
    requires Rooted(b) && Linked(b, {}) && Conserved(b, None, ZERO) && InBudget(b)
    requires h in b && h < bound && forall x :: x in b ==> x < bound
    ensures At(b[h].reserved, d) >= 0
    decreases bound - h
  {
    hide Conserved;
    forall c | c in b[h].children ensures Unspent(b, d)(c) >= 0 {
      assert IsParent(b, h, c);
      ReservesArePositive(b, c, bound, d);
      assert Fits(b, c);
    }
    SumNonNegative(b[h].children, Unspent(b, d));
    ConservedAt(b, h, d);
  }

  /** A batch that may be published leaves a sound book. */
  lemma NarrowedIsSound(b: Book, plans: seq<Plan>, bound: Handle)
    requires Sound(b) && MayNarrow(b, plans) && forall x :: x in b ==> x < bound
    ensures Sound(Narrowed(b, plans))
  {
    hide Conserved, Linked, Rooted;
    NarrowedConserves(b, plans);
    var b' := Narrowed(b, plans);
    forall h, d | h in b'
      ensures 0 <= At(b'[h].spent, d) && 0 <= At(b'[h].reserved, d)
        && At(b'[h].spent, d) + At(b'[h].reserved, d) <= At(b'[h].allotted, d)
    {
      ReservesArePositive(b', h, bound, d);
      NarrowedIs(b, plans, h);
      assert Fits(b', h);
      assert 0 <= At(b[h].spent, d);
    }
  }

  // --------------------------------------------------- the test the code performs

  /** The second pass: what a planned ledger must still cover, counting what its planned
      children give back. */
  predicate Covers(b: Book, plans: seq<Plan>, plan: Plan)
    requires Named(b, plans) && plan.handle in b
  {
    var l := b[plan.handle];
    Leq(Minus(Plus(l.spent, l.reserved), ReturnedTo(b, plans, plan.handle)), plan.row)
  }

  lemma {:induction false} ReturnsAreGains(b: Book, plans: seq<Plan>, p: Handle)
    requires Acceptable(b, plans)
    ensures Leq(ZERO, ReturnedTo(b, plans, p))
  {
    if plans != [] {
      AcceptablePrefix(b, plans, |plans| - 1);
      ReturnsAreGains(b, plans[..|plans| - 1], p);
    }
  }

  /** Testing the planned ledgers alone decides whether the whole narrowed tree fits. */
  lemma LocalTestSuffices(b: Book, plans: seq<Plan>)
    requires Sound(b) && Acceptable(b, plans)
    ensures InBudget(Narrowed(b, plans)) <==> forall i :: 0 <= i < |plans| ==> Covers(b, plans, plans[i])
  {
    hide Conserved, Linked, Rooted;
    var b' := Narrowed(b, plans);
    forall i | 0 <= i < |plans|
      ensures Covers(b, plans, plans[i]) <==> Fits(b', plans[i].handle)
    {
      NarrowedIs(b, plans, plans[i].handle);
      TargetPlanned(b, plans, i);
    }
    forall h | h in b && forall i :: 0 <= i < |plans| ==> plans[i].handle != h ensures Fits(b', h) {
      NarrowedIs(b, plans, h);
      TargetUnplanned(b, plans, h);
      ReturnsAreGains(b, plans, h);
      FundedFits(b, h);
    }
    if forall i :: 0 <= i < |plans| ==> Covers(b, plans, plans[i]) {
      forall h | h in b' ensures Fits(b', h) {
        if i :| 0 <= i < |plans| && plans[i].handle == h {
          assert Covers(b, plans, plans[i]);
        }
      }
    } else {
      var i :| 0 <= i < |plans| && !Covers(b, plans, plans[i]);
      assert !Fits(b', plans[i].handle);
    }
  }

  lemma FundedFits(b: Book, h: Handle)
    requires Funded(b) && h in b
    ensures Fits(b, h)
  {
    assert At(b[h].spent, Cells) + At(b[h].reserved, Cells) <= At(b[h].allotted, Cells);
    assert At(b[h].spent, Bytes) + At(b[h].reserved, Bytes) <= At(b[h].allotted, Bytes);
    assert At(b[h].spent, Commands) + At(b[h].reserved, Commands) <= At(b[h].allotted, Commands);
  }

  // ------------------------------------------------------------------- the operation

  function Lookup(returned: map<Handle, Row>, h: Handle): Row {
    if h in returned then returned[h] else ZERO
  }

  predicate RowOk(b: Book, plan: Plan) {
    && plan.handle in b && !b[plan.handle].released && Encodable(plan.row)
    && Leq(plan.row, b[plan.handle].allotted)
  }

  lemma AcceptableStep(b: Book, plans: seq<Plan>, i: nat)
    requires i < |plans| && Acceptable(b, plans[..i])
    ensures Acceptable(b, plans[..i + 1])
      <==> RowOk(b, plans[i]) && forall j :: 0 <= j < i ==> plans[j].handle != plans[i].handle
  {
    var next := plans[..i + 1];
    assert forall j :: 0 <= j < i ==> next[j] == plans[..i][j];
    assert next[i] == plans[i];
  }

  ghost predicate Tallied(b: Book, plans: seq<Plan>, returned: map<Handle, Row>)
    requires Named(b, plans)
  {
    forall p :: Lookup(returned, p) == ReturnedTo(b, plans, p)
  }

  function Credit(b: Book, returned: map<Handle, Row>, plan: Plan): map<Handle, Row>
    requires plan.handle in b
  {
    var parent := b[plan.handle].parent;
    if parent.None? then returned
    else returned[parent.value := Plus(Lookup(returned, parent.value), GivenBack(b, plan))]
  }

  lemma ReturnedLast(b: Book, plans: seq<Plan>, front: seq<Plan>, last: Plan, p: Handle)
    requires Named(b, plans) && Named(b, front) && plans != [] && last.handle in b
    requires plans[..|plans| - 1] == front && plans[|plans| - 1] == last
    ensures ReturnedTo(b, plans, p)
      == Plus(ReturnedTo(b, front, p), if b[last.handle].parent == Some(p) then GivenBack(b, last) else ZERO)
  {
  }

  lemma CreditIs(b: Book, returned: map<Handle, Row>, last: Plan, p: Handle)
    requires last.handle in b
    ensures Lookup(Credit(b, returned, last), p)
      == Plus(Lookup(returned, p), if b[last.handle].parent == Some(p) then GivenBack(b, last) else ZERO)
  {
    PlusZero(Lookup(returned, p));
    hide Plus, GivenBack;
  }

  lemma PlusZero(row: Row)
    ensures Plus(row, ZERO) == row
  {
  }

  lemma TallyStep(b: Book, plans: seq<Plan>, i: nat, returned: map<Handle, Row>)
    requires i < |plans| && Named(b, plans[..i]) && Named(b, plans[..i + 1]) && Tallied(b, plans[..i], returned)
    requires plans[i].handle in b
    ensures Tallied(b, plans[..i + 1], Credit(b, returned, plans[i]))
  {
    hide ReturnedTo, Credit, Plus;
    assert plans[..i + 1][..i] == plans[..i];
    forall p ensures Lookup(Credit(b, returned, plans[i]), p) == ReturnedTo(b, plans[..i + 1], p) {
      CreditIs(b, returned, plans[i], p);
      ReturnedLast(b, plans[..i + 1], plans[..i], plans[i], p);
    }
  }

  /** The first pass: live, unique, not growing; and what each parent gets back. */
  method Gather(reg: Registry, plans: seq<Plan>) returns (ok: bool, returned: map<Handle, Row>)
    ensures ok <==> Acceptable(reg.book, plans)
    ensures ok ==> Tallied(reg.book, plans, returned)
  {
    var seen: set<Handle> := {};
    returned := map[];
    for i := 0 to |plans|
      invariant Acceptable(reg.book, plans[..i]) && Tallied(reg.book, plans[..i], returned)
      invariant forall h :: h in seen <==> exists j :: 0 <= j < i && plans[j].handle == h
    {
      AcceptableStep(reg.book, plans, i);
      hide Acceptable, Tallied;
      if !RowOk(reg.book, plans[i]) || plans[i].handle in seen {
        if Acceptable(reg.book, plans) {
          AcceptablePrefix(reg.book, plans, i + 1);
        }
        return false, map[];
      }
      AcceptableNames(reg.book, plans[..i]);
      AcceptableNames(reg.book, plans[..i + 1]);
      TallyStep(reg.book, plans, i, returned);
      returned := Credit(reg.book, returned, plans[i]);
      seen := seen + {plans[i].handle};
    }
    assert plans[..|plans|] == plans;
    ok := true;
  }

  lemma AcceptableNames(b: Book, plans: seq<Plan>)
    requires Acceptable(b, plans)
    ensures Named(b, plans)
  {
  }

  /** Both passes over the ledger rows: the batch is accepted exactly when it may be
      published. */
  method CheckLedgers(reg: Registry, plans: seq<Plan>) returns (ok: bool)
    requires reg.Valid()
    ensures ok <==> MayNarrow(reg.book, plans)
  {
    hide Sound, History, InBudget, Acceptable, ReturnedTo, Narrowed;
    var returned;
    ok, returned := Gather(reg, plans);
    if !ok {
      return;
    }
    LocalTestSuffices(reg.book, plans);
    AcceptableNames(reg.book, plans);
    for i := 0 to |plans|
      invariant forall j :: 0 <= j < i ==> Covers(reg.book, plans, plans[j])
    {
      var l := reg.book[plans[i].handle];
      assert Lookup(returned, plans[i].handle) == ReturnedTo(reg.book, plans, plans[i].handle);
      if !Leq(Minus(Plus(l.spent, l.reserved), Lookup(returned, plans[i].handle)), plans[i].row) {
        assert !Covers(reg.book, plans, plans[i]);
        return false;
      }
    }
  }

  method PublishLedgers(reg: Registry, plans: seq<Plan>)
    requires reg.Valid() && MayNarrow(reg.book, plans)
    modifies reg`book
    ensures reg.Valid() && reg.book == Narrowed(old(reg.book), plans)
  {
    assert Rooted(reg.book);
    hide Sound, InBudget, History, Rooted;
    NarrowedIsSound(reg.book, plans, reg.next);
    for i := 0 to |plans|
      invariant Named(old(reg.book), plans[..i]) && reg.book == Narrowed(old(reg.book), plans[..i])
    {
      assert Named(old(reg.book), plans[..i + 1]);
      assert plans[..i + 1][..i] == plans[..i];
      reg.book := NarrowOne(reg.book, plans[i]);
    }
    assert plans[..|plans|] == plans;
    NarrowedHistory(old(reg.book), plans, reg.log);
  }

  lemma NarrowedHistory(b: Book, plans: seq<Plan>, log: Charges)
    requires Rooted(b) && Acceptable(b, plans) && History(b, log, None, ZERO)
    ensures History(Narrowed(b, plans), log, None, ZERO)
  {
    hide Rooted, History;
    forall x | x in b ensures Narrowed(b, plans)[x].spent == b[x].spent && Narrowed(b, plans)[x].parent == b[x].parent {
      NarrowedIs(b, plans, x);
    }
    HistoryKept(b, Narrowed(b, plans), log);
  }

  /** `narrowPeerReservations`: all or nothing over both kinds of rows. */
  method NarrowReservations(reg: Registry, memory: PeerMemory.Memory, rows: seq<Plan>, sizes: seq<MemoryTree.Plan>)
    returns (ok: bool)
    requires reg.Valid() && memory.Valid()
    modifies reg`book, memory`store
    ensures reg.Valid() && memory.Valid()
    ensures ok <==> MayNarrow(old(reg.book), rows) && PeerMemory.MayNarrow(old(memory.store), sizes)
    ensures ok ==> reg.book == Narrowed(old(reg.book), rows) && memory.store == PeerMemory.Narrowed(old(memory.store), sizes)
    ensures !ok ==> reg.book == old(reg.book) && memory.store == old(memory.store)
  {
    ok := CheckLedgers(reg, rows);
    if !ok {
      return;
    }
    ok := memory.CheckNarrow(sizes);
    if !ok {
      return;
    }
    hide Sound, History, MayNarrow, PeerMemory.MayNarrow;
    PublishLedgers(reg, rows);
    memory.PublishNarrow(sizes);
  }
}
