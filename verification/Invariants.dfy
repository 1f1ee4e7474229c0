/** What every action keeps, and with it what holds in every state of every run. */
module Invariants {
  import opened Types
  import opened SeatTable
  import opened Ledger
  import opened Purchase

  // ---- units and hold tokens ----

  /** A held row carries a token that was issued for exactly this unit, expiry and user. */
  ghost predicate HoldIssued(issued: map<Id, Issue>, id: Id, r: Row) {
    r.status == Held ==>
      && r.holdToken.Some? && r.holdExpiresAt.Some? && r.heldBy.Some?
      && r.holdToken.value in issued
      && issued[r.holdToken.value] == Issue(id, r.holdExpiresAt.value, r.heldBy.value)
  }

  ghost predicate RowsOk(t: Table, issued: map<Id, Issue>) {
    && WellFormed(t)
    && forall id | id in t.rows :: HoldIssued(issued, id, t.rows[id])
  }

  lemma PutKeepsRows(t: Table, issued: map<Id, Issue>, id: Id, r: Row)
    requires RowsOk(t, issued)
    requires RowCheck(r) && HoldIssued(issued, id, r)
    requires if id in t.rows then r.event == t.rows[id].event && r.seat == t.rows[id].seat
             else CanInsert(t, id, r.event, r.seat)
    ensures RowsOk(Put(t, id, r), issued)
  {
  }

  lemma IssueKeepsRows(t: Table, issued: map<Id, Issue>, token: Id, i: Issue)
    requires RowsOk(t, issued) && token !in issued
    ensures RowsOk(t, issued[token := i])
  {
    forall id | id in t.rows ensures HoldIssued(issued[token := i], id, t.rows[id]) {
      assert HoldIssued(issued, id, t.rows[id]);
    }
  }

  lemma SellAllKeepsRows(t: Table, issued: map<Id, Issue>, tenant: Id, items: seq<Item>)
    requires RowsOk(t, issued)
    ensures RowsOk(SellAll(t, tenant, items), issued)
  {
    var u := SellAll(t, tenant, items);
    forall id | id in u.rows ensures RowCheck(u.rows[id]) && HoldIssued(issued, id, u.rows[id]) {
      assert RowCheck(t.rows[id]) && HoldIssued(issued, id, t.rows[id]);
    }
  }

  // ---- items of orders ----

  /** Every item names a token that was once issued for that very unit. */
  ghost predicate ItemsKnown(issued: map<Id, Issue>, items: seq<Item>) {
    forall k | 0 <= k < |items| ::
      items[k].token in issued && issued[items[k].token].row == items[k].row
  }

  ghost predicate OrdersOk(orders: map<Id, Order>, issued: map<Id, Issue>) {
    forall o | o in orders :: orders[o].items != [] && ItemsKnown(issued, orders[o].items)
  }

  // ---- calls in flight ----

  ghost predicate CallOk(c: Call, orders: map<Id, Order>, payments: map<Id, Payment>,
                         failed: set<Id>, issued: map<Id, Issue>) {
    match c
    case Creating(_, _, _, wants, lines, _, _) =>
      wants != [] && |lines| <= |wants| && ItemsKnown(issued, lines)
    case Authorizing(order, _) => order in orders
    case Confirming(order, payment, stage) =>
      && order in orders
      && (stage != Checked ==> Matches(orders, payments, order, payment))
      && (stage.Selling? ==> stage.next <= |orders[order].items|)
      && (stage.Aborted? || stage.RefundSent? || stage.RefundNoted? ==> order in failed)
  }

  ghost predicate CallsOk(calls: map<nat, Call>, nextCall: nat, orders: map<Id, Order>,
                          payments: map<Id, Payment>, failed: set<Id>, issued: map<Id, Issue>) {
    forall c | c in calls :: c < nextCall && CallOk(calls[c], orders, payments, failed, issued)
  }

  // ---- row locks ----

  /** The n units an open transaction has updated: distinct, locked by it, still held as listed. */
  ghost predicate LockedPrefix(locks: map<Id, nat>, t: Table, call: nat, tenant: Id, items: seq<Item>, n: nat) {
    && n <= |items|
    && (forall k | 0 <= k < n ::
          && items[k].row in locks
          && locks[items[k].row] == call
          && Carries(t, tenant, items[k].row, items[k].token))
    && (forall i, j | 0 <= i < j < n :: items[i].row != items[j].row)
  }

  ghost predicate CallLocks(locks: map<Id, nat>, t: Table, orders: map<Id, Order>, call: nat, c: Call) {
    c.Confirming? && c.stage.Selling? ==>
      && c.order in orders
      && LockedPrefix(locks, t, call, orders[c.order].tenant, orders[c.order].items, c.stage.next)
  }

  /** The open transaction of this call has updated unit r. */
  ghost predicate Claims(c: Call, orders: map<Id, Order>, r: Id) {
    && c.Confirming? && c.stage.Selling? && c.order in orders
    && exists k :: 0 <= k < c.stage.next && k < |orders[c.order].items| && orders[c.order].items[k].row == r
  }

  /** Every lock belongs to an open transaction, which holds exactly what it has updated. */
  ghost predicate LocksOk(locks: map<Id, nat>, calls: map<nat, Call>, orders: map<Id, Order>, t: Table) {
    && (forall r | r in locks :: r in t.rows && locks[r] in calls && Claims(calls[locks[r]], orders, r))
    && (forall call | call in calls :: CallLocks(locks, t, orders, call, calls[call]))
  }

  // ---- sales ----

  predicate Gone(t: Table, id: Id) {
    id in t.rows && (t.rows[id].status == Sold || t.rows[id].status == Void)
  }

  ghost predicate SaleOk(sale: Sale, orders: map<Id, Order>, t: Table) {
    && (forall k | 0 <= k < |sale.rows| :: Gone(t, sale.rows[k]))
    && (forall i, j | 0 <= i < j < |sale.rows| :: sale.rows[i] != sale.rows[j])
    && (sale.order.Some? ==>
          sale.order.value in orders && sale.rows == RowList(orders[sale.order.value].items))
  }

  /** No unit occurs in two sales. */
  ghost predicate SalesDisjoint(sales: seq<Sale>) {
    forall i, j, id | 0 <= i < j < |sales| && id in sales[i].rows :: id !in sales[j].rows
  }

  ghost predicate SalesOk(sales: seq<Sale>, orders: map<Id, Order>, t: Table) {
    && (forall k | 0 <= k < |sales| :: SaleOk(sales[k], orders, t))
    && SalesDisjoint(sales)
  }

  // ---- the outbox ----

  function SalesOf(sales: seq<Sale>, order: Id): nat {
    if sales == [] then 0
    else SalesOf(sales[..|sales| - 1], order) + if sales[|sales| - 1].order == Some(order) then 1 else 0
  }

  function NotesOf(outbox: seq<Note>, order: Id): nat {
    if outbox == [] then 0
    else NotesOf(outbox[..|outbox| - 1], order) + if outbox[|outbox| - 1].order == order then 1 else 0
  }

  ghost predicate OutboxOk(outbox: seq<Note>, sales: seq<Sale>) {
    forall order: Id :: NotesOf(outbox, order) == SalesOf(sales, order)
  }

  // ---- aborted confirmations ----

  /** The order can never be sold: two items name one unit, or a captured token has left its unit. */
  ghost predicate Doomed(o: Order, t: Table) {
    || (exists i, j :: 0 <= i < j < |o.items| && o.items[i].row == o.items[j].row)
    || (exists k :: 0 <= k < |o.items| && !Carries(t, o.tenant, o.items[k].row, o.items[k].token))
  }

  ghost predicate FailedOk(failed: set<Id>, orders: map<Id, Order>, t: Table) {
    forall o | o in failed :: o in orders && Doomed(orders[o], t)
  }

  // ---- idempotency keys ----

  ghost predicate KeysOk(orders: map<Id, Order>, payments: map<Id, Payment>) {
    && (forall a, b | a in orders && b in orders && a != b ::
          !(orders[a].tenant == orders[b].tenant && orders[a].key == orders[b].key))
    && (forall a, b | a in payments && b in payments && a != b ::
          !(payments[a].tenant == payments[b].tenant && payments[a].key == payments[b].key))
    && (forall p | p in payments ::
          && payments[p].order in orders
          && payments[p].tenant == orders[payments[p].order].tenant
          && payments[p].key == orders[payments[p].order].key)
  }

  /** The invariant. */
  ghost predicate Inv(s: State) {
    && RowsOk(s.table, s.issued)
    && LedgerAgrees(s.table)
    && OrdersOk(s.orders, s.issued)
    && CallsOk(s.calls, s.nextCall, s.orders, s.payments, s.failed, s.issued)
    && LocksOk(s.locks, s.calls, s.orders, s.table)
    && SalesOk(s.sales, s.orders, s.table)
    && OutboxOk(s.outbox, s.sales)
    && FailedOk(s.failed, s.orders, s.table)
    && KeysOk(s.orders, s.payments)
  }

  lemma StartOk()
    ensures Inv(START)
  {
  }

  // ---- changes that several actions share ----

  /** The same orders, up to their statuses. */
  ghost predicate Restated(before: map<Id, Order>, after: map<Id, Order>) {
    && before.Keys == after.Keys
    && forall o | o in before :: after[o].(status := before[o].status) == before[o]
  }

  lemma RestatedKeepsOrdersAndCalls(s: State, orders: map<Id, Order>)
    requires Inv(s) && Restated(s.orders, orders)
    ensures OrdersOk(orders, s.issued)
    ensures CallsOk(s.calls, s.nextCall, orders, s.payments, s.failed, s.issued)
    ensures KeysOk(orders, s.payments)
  {
    hide RowsOk, LedgerAgrees, OutboxOk, LocksOk, SalesOk, FailedOk;
    forall c | c in s.calls ensures CallOk(s.calls[c], orders, s.payments, s.failed, s.issued) {
      assert CallOk(s.calls[c], s.orders, s.payments, s.failed, s.issued);
    }
  }

  lemma RestatedKeepsLocksAndSales(s: State, orders: map<Id, Order>)
    requires Inv(s) && Restated(s.orders, orders)
    ensures LocksOk(s.locks, s.calls, orders, s.table)
    ensures SalesOk(s.sales, orders, s.table)
    ensures FailedOk(s.failed, orders, s.table)
  {
    hide RowsOk, LedgerAgrees, OutboxOk, OrdersOk, CallsOk, KeysOk, LockedPrefix;
    forall call | call in s.calls ensures CallLocks(s.locks, s.table, orders, call, s.calls[call]) {
      assert CallLocks(s.locks, s.table, s.orders, call, s.calls[call]);
    }
    forall k | 0 <= k < |s.sales| ensures SaleOk(s.sales[k], orders, s.table) {
      assert SaleOk(s.sales[k], s.orders, s.table);
    }
    forall o | o in s.failed ensures o in orders && Doomed(orders[o], s.table) {
      assert Doomed(s.orders[o], s.table);
    }
  }

  lemma SetOrderStatusKeeps(s: State, order: Id, status: OrderStatus)
    requires Inv(s)
    ensures Inv(SetOrderStatus(s, order, status))
  {
    hide RowsOk, LedgerAgrees, OutboxOk, OrdersOk, CallsOk, KeysOk, LocksOk, SalesOk, FailedOk;
    var orders := SetOrderStatus(s, order, status).orders;
    RestatedKeepsOrdersAndCalls(s, orders);
    RestatedKeepsLocksAndSales(s, orders);
  }

  lemma SetPaymentStatusKeeps(s: State, payment: Id, status: PaymentStatus)
    requires Inv(s)
    ensures Inv(SetPaymentStatus(s, payment, status))
  {
    hide RowsOk, LedgerAgrees, OrdersOk, SalesOk, OutboxOk, FailedOk, LocksOk;
    var payments := SetPaymentStatus(s, payment, status).payments;
    forall c | c in s.calls ensures CallOk(s.calls[c], s.orders, payments, s.failed, s.issued) {
      assert CallOk(s.calls[c], s.orders, s.payments, s.failed, s.issued);
    }
  }

  lemma PrefixKeepsWithout(locks: map<Id, nat>, t: Table, call: nat, tenant: Id, items: seq<Item>, n: nat, gone: nat)
    requires LockedPrefix(locks, t, call, tenant, items, n) && gone != call
    ensures LockedPrefix(Without(locks, gone), t, call, tenant, items, n)
  {
  }

  /** Ending a call and dropping its locks, which is all a crash does. */
  lemma CrashKeeps(s: State, call: nat)
    requires Inv(s)
    ensures Inv(DoCrash(s, call))
  {
    hide RowsOk, LedgerAgrees, OrdersOk, SalesOk, OutboxOk, FailedOk, KeysOk, LockedPrefix, CallOk;
    var t := DoCrash(s, call);
    forall r | r in t.locks ensures r in t.table.rows && t.locks[r] in t.calls && Claims(t.calls[t.locks[r]], t.orders, r) {
      assert Claims(s.calls[s.locks[r]], s.orders, r);
    }
    forall c | c in t.calls ensures CallLocks(t.locks, t.table, t.orders, c, t.calls[c]) {
      assert CallLocks(s.locks, s.table, s.orders, c, s.calls[c]);
      if IsSelling(s, c) {
        var o := s.orders[s.calls[c].order];
        PrefixKeepsWithout(s.locks, s.table, c, o.tenant, o.items, s.calls[c].stage.next, call);
      }
    }
  }

  lemma EndKeeps(s: State, call: nat)
    requires Inv(s) && !IsSelling(s, call)
    ensures Inv(End(s, call))
  {
    hide RowsOk, LedgerAgrees, OrdersOk, SalesOk, OutboxOk, FailedOk, KeysOk, CallsOk;
    CrashKeeps(s, call);
    assert Without(s.locks, call) == s.locks;
  }

  /** Starting or moving a call whose transaction, if any, has updated nothing. */
  lemma CallKeeps(s: State, call: nat, c: Call)
    requires Inv(s) && !IsSelling(s, call)
    requires CallOk(c, s.orders, s.payments, s.failed, s.issued)
    requires c.Confirming? && c.stage.Selling? ==> c.stage.next == 0
    ensures Inv(s.(calls := s.calls[call := c], nextCall := if call < s.nextCall then s.nextCall else call + 1))
  {
    hide RowsOk, LedgerAgrees, OrdersOk, SalesOk, OutboxOk, FailedOk, KeysOk, ItemsKnown;
  }

  lemma AddPaymentKeeps(s: State, payment: Id, p: Payment)
    requires Inv(s) && payment !in s.payments
    requires p.order in s.orders && p.tenant == s.orders[p.order].tenant && p.key == s.orders[p.order].key
    requires !PaymentKeyTaken(s, p.tenant, p.key)
    ensures Inv(s.(payments := s.payments[payment := p]))
  {
    hide RowsOk, LedgerAgrees, OrdersOk, SalesOk, OutboxOk, FailedOk, LocksOk;
    forall c | c in s.calls ensures CallOk(s.calls[c], s.orders, s.payments[payment := p], s.failed, s.issued) {
      assert CallOk(s.calls[c], s.orders, s.payments, s.failed, s.issued);
    }
  }

  /** New orders change nothing that is said of the old ones. */
  lemma MoreOrdersKeepLocksAndSales(s: State, orders: map<Id, Order>)
    requires Inv(s)
    requires forall o | o in s.orders :: o in orders && orders[o] == s.orders[o]
    ensures CallsOk(s.calls, s.nextCall, orders, s.payments, s.failed, s.issued)
    ensures LocksOk(s.locks, s.calls, orders, s.table)
    ensures SalesOk(s.sales, orders, s.table)
    ensures FailedOk(s.failed, orders, s.table)
  {
    hide RowsOk, LedgerAgrees, OutboxOk, OrdersOk, KeysOk, LockedPrefix, Doomed, ItemsKnown;
    forall c | c in s.calls
      ensures CallOk(s.calls[c], orders, s.payments, s.failed, s.issued)
      ensures CallLocks(s.locks, s.table, orders, c, s.calls[c])
    {
      assert CallOk(s.calls[c], s.orders, s.payments, s.failed, s.issued);
      assert CallLocks(s.locks, s.table, s.orders, c, s.calls[c]);
    }
    forall k | 0 <= k < |s.sales| ensures SaleOk(s.sales[k], orders, s.table) {
      assert SaleOk(s.sales[k], s.orders, s.table);
    }
  }

  lemma AddOrderKeeps(s: State, order: Id, o: Order)
    requires Inv(s) && order !in s.orders
    requires o.items != [] && ItemsKnown(s.issued, o.items)
    requires !KeyTaken(s, o.tenant, o.key)
    ensures Inv(s.(orders := s.orders[order := o]))
  {
    hide RowsOk, LedgerAgrees, OutboxOk, CallsOk, LocksOk, SalesOk, FailedOk;
    MoreOrdersKeepLocksAndSales(s, s.orders[order := o]);
  }

  /** The row a statement may write: a legal move that never brings a known token back. */
  ghost predicate MayWrite(t: Table, issued: map<Id, Issue>, id: Id, r: Row) {
    var previous := if id in t.rows then Some(t.rows[id].status) else None;
    && (previous == Some(r.status) != Some(Held) || LegalMove(previous, r.status))
    && (r.status == Held ==> r.holdToken.Some? && r.holdToken.value !in issued)
  }

  lemma WriteKeepsLocksAndSales(s: State, id: Id, r: Row)
    requires Inv(s) && id !in s.locks && MayWrite(s.table, s.issued, id, r)
    ensures LocksOk(s.locks, s.calls, s.orders, Put(s.table, id, r))
    ensures SalesOk(s.sales, s.orders, Put(s.table, id, r))
  {
    hide LedgerAgrees, OutboxOk, OrdersOk, KeysOk, CallsOk, RowsOk, FailedOk;
    var t := Put(s.table, id, r);
    forall k | 0 <= k < |s.sales| ensures SaleOk(s.sales[k], s.orders, t) {
      assert SaleOk(s.sales[k], s.orders, s.table);
    }
    forall c | c in s.calls ensures CallLocks(s.locks, t, s.orders, c, s.calls[c]) {
      assert CallLocks(s.locks, s.table, s.orders, c, s.calls[c]);
    }
  }

  lemma WriteKeepsFailed(s: State, id: Id, r: Row)
    requires Inv(s) && MayWrite(s.table, s.issued, id, r)
    ensures FailedOk(s.failed, s.orders, Put(s.table, id, r))
  {
    hide LedgerAgrees, OutboxOk, KeysOk, CallsOk, RowsOk, LocksOk, SalesOk;
    var t := Put(s.table, id, r);
    forall o | o in s.failed ensures Doomed(s.orders[o], t) {
      DoomedStays(s.orders[o], s.table, s.issued, id, r);
    }
  }

  /** A retired token never returns to its unit, so a doomed order stays doomed. */
  lemma DoomedStays(o: Order, t: Table, issued: map<Id, Issue>, id: Id, r: Row)
    requires Doomed(o, t) && ItemsKnown(issued, o.items) && MayWrite(t, issued, id, r)
    ensures Doomed(o, Put(t, id, r))
  {
    if k :| 0 <= k < |o.items| && !Carries(t, o.tenant, o.items[k].row, o.items[k].token) {
      assert !Carries(Put(t, id, r), o.tenant, o.items[k].row, o.items[k].token);
    }
  }

  lemma MoreTokensKeep(s: State, issued: map<Id, Issue>)
    requires Inv(s)
    requires forall t | t in s.issued :: t in issued && issued[t] == s.issued[t]
    ensures OrdersOk(s.orders, issued)
    ensures CallsOk(s.calls, s.nextCall, s.orders, s.payments, s.failed, issued)
  {
    hide LedgerAgrees, OutboxOk, KeysOk, RowsOk, LocksOk, SalesOk, FailedOk;
    forall c | c in s.calls ensures CallOk(s.calls[c], s.orders, s.payments, s.failed, issued) {
      assert CallOk(s.calls[c], s.orders, s.payments, s.failed, s.issued);
    }
  }

  /** Any statement that writes one unlocked unit. */
  lemma WriteKeeps(s: State, id: Id, r: Row, issued: map<Id, Issue>)
    requires Inv(s) && id !in s.locks && MayWrite(s.table, s.issued, id, r)
    requires RowsOk(s.table, issued) && RowCheck(r) && HoldIssued(issued, id, r)
    requires forall t | t in s.issued :: t in issued && issued[t] == s.issued[t]
    requires if id in s.table.rows then r.event == s.table.rows[id].event && r.seat == s.table.rows[id].seat
             else CanInsert(s.table, id, r.event, r.seat)
    ensures Inv(s.(table := Put(s.table, id, r), issued := issued))
  {
    hide RowsOk, LedgerAgrees, OutboxOk, OrdersOk, CallsOk, KeysOk, LocksOk, SalesOk, FailedOk;
    PutKeepsRows(s.table, issued, id, r);
    PutKeepsLedger(s.table, id, r);
    MoreTokensKeep(s, issued);
    WriteKeepsLocksAndSales(s, id, r);
    WriteKeepsFailed(s, id, r);
  }

  // ---- one lemma per action ----

  lemma TickKeeps(s: State, d: nat)
    requires Inv(s)
    ensures Inv(s.(now := s.now + d))
  {
  }


  lemma CreateUnitKeeps(s: State, id: Id, tenant: Id, event: Id, category: Id, seat: Option<Id>)
    requires Inv(s)
    ensures Inv(s.(table := Insert(s.table, id, tenant, event, category, seat)))
  {
    hide RowsOk, LedgerAgrees, OutboxOk, OrdersOk, CallsOk, KeysOk, SalesOk, FailedOk;
    if CanInsert(s.table, id, event, seat) {
      WriteKeeps(s, id, NewRow(tenant, event, category, seat), s.issued);
    }
  }

  lemma HoldKeeps(s: State, tenant: Id, id: Id, token: Id, user: Id, expires: Time)
    requires Inv(s)
    ensures Inv(DoHold(s, tenant, id, token, user, expires))
  {
    hide RowsOk, LedgerAgrees, OutboxOk, OrdersOk, CallsOk, KeysOk, LocksOk, SalesOk, FailedOk;
    if IsAvailable(s.table, tenant, id) && id !in s.locks && token !in s.issued {
      IssueKeepsRows(s.table, s.issued, token, Issue(id, expires, user));
      WriteKeeps(s, id, HeldRow(s.table.rows[id], token, user, expires), s.issued[token := Issue(id, expires, user)]);
    }
  }

  lemma ReleaseKeeps(s: State, tenant: Id, id: Id, token: Id)
    requires Inv(s)
    ensures Inv(DoRelease(s, tenant, id, token))
  {
    hide RowsOk, LedgerAgrees, OutboxOk, OrdersOk, CallsOk, KeysOk, LocksOk, SalesOk, FailedOk;
    if id !in s.locks && Carries(s.table, tenant, id, token) {
      WriteKeeps(s, id, Cleared(s.table.rows[id], Available), s.issued);
    }
  }

  lemma VoidKeeps(s: State, tenant: Id, id: Id)
    requires Inv(s)
    ensures Inv(DoVoid(s, tenant, id))
  {
    hide RowsOk, LedgerAgrees, OutboxOk, OrdersOk, CallsOk, KeysOk, LocksOk, SalesOk, FailedOk;
    if id !in s.locks && Exists(s.table, tenant, id) {
      WriteKeeps(s, id, Cleared(s.table.rows[id], Void), s.issued);
    }
  }

  /** Adding a sale of units that were not gone before and are now. */
  lemma AddSaleKeepsSales(sales: seq<Sale>, orders: map<Id, Order>, t: Table, u: Table, sale: Sale)
    requires SalesOk(sales, orders, t)
    requires forall id | Gone(t, id) :: Gone(u, id)
    requires SaleOk(sale, orders, u)
    requires forall k | 0 <= k < |sale.rows| :: !Gone(t, sale.rows[k])
    ensures SalesOk(sales + [sale], orders, u)
  {
    var more := sales + [sale];
    forall k | 0 <= k < |more| ensures SaleOk(more[k], orders, u) {
      if k < |sales| { assert SaleOk(sales[k], orders, t); }
    }
    forall i, j, id | 0 <= i < j < |more| && id in more[i].rows ensures id !in more[j].rows {
      assert SaleOk(sales[i], orders, t);
    }
  }

  lemma SalesOfAppend(sales: seq<Sale>, sale: Sale, order: Id)
    ensures SalesOf(sales + [sale], order) == SalesOf(sales, order) + if sale.order == Some(order) then 1 else 0
  {
    assert (sales + [sale])[..|sales|] == sales;
  }

  lemma NotesOfAppend(outbox: seq<Note>, note: Note, order: Id)
    ensures NotesOf(outbox + [note], order) == NotesOf(outbox, order) + if note.order == order then 1 else 0
  {
    assert (outbox + [note])[..|outbox|] == outbox;
  }

  lemma SellUnitKeeps(s: State, tenant: Id, id: Id, token: Id)
    requires Inv(s)
    ensures Inv(DoSellUnit(s, tenant, id, token))
  {
    hide RowsOk, LedgerAgrees, OrdersOk, CallsOk, KeysOk, LocksOk, SalesOk, FailedOk;
    if id !in s.locks && Carries(s.table, tenant, id, token) {
      var r := Cleared(s.table.rows[id], Sold);
      WriteKeeps(s, id, r, s.issued);
      AddSaleKeepsSales(s.sales, s.orders, s.table, Put(s.table, id, r), Sale(None, [id]));
      forall order: Id ensures SalesOf(s.sales + [Sale(None, [id])], order) == SalesOf(s.sales, order) {
        SalesOfAppend(s.sales, Sale(None, [id]), order);
      }
    }
  }

  lemma CreateStartKeeps(s: State, tenant: Id, user: Id, key: string, wants: seq<Want>)
    requires Inv(s)
    ensures Inv(DoCreateStart(s, tenant, user, key, wants))
  {
    hide RowsOk, LedgerAgrees, OutboxOk, OrdersOk, KeysOk, LocksOk, SalesOk, FailedOk;
    if wants != [] {
      CallKeeps(s, s.nextCall, Creating(tenant, user, key, wants, [], Money(0, ""), None));
    }
  }

  lemma CreateReadKeeps(s: State, call: nat, price: Money)
    requires Inv(s)
    ensures Inv(DoCreateRead(s, call, price))
  {
    hide LedgerAgrees, OutboxOk, OrdersOk, KeysOk, LocksOk, SalesOk, FailedOk, WellFormed;
    if call in s.calls && s.calls[call].Creating? && |s.calls[call].lines| < |s.calls[call].wants| {
      var c := s.calls[call];
      var want := c.wants[|c.lines|];
      if Carries(s.table, c.tenant, want.row, want.token) {
        assert HoldIssued(s.issued, want.row, s.table.rows[want.row]);
        var more := Extended(c, s.table.rows[want.row].holdExpiresAt, price);
        if more.Some? { CallKeeps(s, call, more.value); }
      }
      EndKeeps(s, call);
    }
  }

  lemma CreateCommitKeeps(s: State, call: nat, order: Id)
    requires Inv(s)
    ensures Inv(DoCreateCommit(s, call, order))
  {
    hide RowsOk, LedgerAgrees, OutboxOk, OrdersOk, KeysOk, LocksOk, SalesOk, FailedOk;
    if call in s.calls && s.calls[call].Creating? && |s.calls[call].lines| == |s.calls[call].wants| {
      var c := s.calls[call];
      EndKeeps(s, call);
      if !(order in s.orders || KeyTaken(s, c.tenant, c.key)) && Admissible(c.lines, c.subtotal) {
        var o := Order(c.tenant, c.user, c.key, Pending, c.lines, c.subtotal, c.tightest);
        AddOrderKeeps(s, order, o);
        EndKeeps(s.(orders := s.orders[order := o]), call);
      }
    }
  }

  lemma AuthorizeStartKeeps(s: State, tenant: Id, order: Id)
    requires Inv(s)
    ensures Inv(DoAuthorizeStart(s, tenant, order))
  {
    hide RowsOk, LedgerAgrees, OutboxOk, OrdersOk, KeysOk, LocksOk, SalesOk, FailedOk;
    if order in s.orders {
      CallKeeps(s, s.nextCall, Authorizing(order, false));
    }
  }

  lemma AuthorizeRecordKeeps(s: State, call: nat, payment: Id)
    requires Inv(s)
    ensures Inv(DoAuthorizeRecord(s, call, payment))
  {
    hide RowsOk, LedgerAgrees, OutboxOk, OrdersOk, KeysOk, LocksOk, SalesOk, FailedOk;
    if call in s.calls && s.calls[call].Authorizing? && !s.calls[call].recorded && s.calls[call].order in s.orders {
      var id := s.calls[call].order;
      var o := s.orders[id];
      if payment in s.payments || PaymentKeyTaken(s, o.tenant, o.key) {
        EndKeeps(s, call);
      } else {
        var p := Payment(o.tenant, id, o.key, PaymentPending, o.total);
        AddPaymentKeeps(s, payment, p);
        CallKeeps(s.(payments := s.payments[payment := p]), call, Authorizing(id, true));
      }
    }
  }

  lemma AuthorizeFinishKeeps(s: State, call: nat)
    requires Inv(s)
    ensures Inv(DoAuthorizeFinish(s, call))
  {
    hide RowsOk, LedgerAgrees, OutboxOk, OrdersOk, CallsOk, KeysOk, LocksOk, SalesOk, FailedOk;
    if call in s.calls && s.calls[call].Authorizing? {
      SetOrderStatusKeeps(s, s.calls[call].order, AwaitingPayment);
      EndKeeps(SetOrderStatus(s, s.calls[call].order, AwaitingPayment), call);
    }
  }

  lemma ConfirmStartKeeps(s: State, tenant: Id, order: Id, payment: Id)
    requires Inv(s)
    ensures Inv(DoConfirmStart(s, tenant, order, payment))
  {
    hide RowsOk, LedgerAgrees, OutboxOk, OrdersOk, KeysOk, LocksOk, SalesOk, FailedOk;
    if order in s.orders {
      CallKeeps(s, s.nextCall, Confirming(order, payment, Checked));
    }
  }

  lemma ConfirmLoadKeeps(s: State, call: nat)
    requires Inv(s)
    ensures Inv(DoConfirmLoad(s, call))
  {
    hide RowsOk, LedgerAgrees, OutboxOk, OrdersOk, KeysOk, LocksOk, SalesOk, FailedOk;
    if AtStage(s, call, Checked) {
      if PaymentMatches(s, s.calls[call].order, s.calls[call].payment) {
        CallKeeps(s, call, s.calls[call].(stage := Selling(0)));
      } else {
        EndKeeps(s, call);
      }
    }
  }

  lemma ConfirmCaptureKeeps(s: State, call: nat)
    requires Inv(s)
    ensures Inv(DoConfirmCapture(s, call))
  {
    hide RowsOk, LedgerAgrees, OutboxOk, OrdersOk, CallsOk, KeysOk, LocksOk, SalesOk, FailedOk;
    if AtStage(s, call, Committed) {
      SetPaymentStatusKeeps(s, s.calls[call].payment, Captured);
      EndKeeps(SetPaymentStatus(s, s.calls[call].payment, Captured), call);
    }
  }

  lemma RefundSendKeeps(s: State, call: nat)
    requires Inv(s)
    ensures Inv(DoRefundSend(s, call))
  {
    hide RowsOk, LedgerAgrees, OutboxOk, OrdersOk, KeysOk, LocksOk, SalesOk, FailedOk;
    if AtStage(s, call, Aborted) {
      CallKeeps(s, call, s.calls[call].(stage := RefundSent));
    }
  }

  lemma RefundNoteKeeps(s: State, call: nat)
    requires Inv(s)
    ensures Inv(DoRefundNote(s, call))
  {
    hide RowsOk, LedgerAgrees, OutboxOk, OrdersOk, KeysOk, LocksOk, SalesOk, FailedOk;
    if AtStage(s, call, RefundSent) {
      SetPaymentStatusKeeps(s, s.calls[call].payment, Refunded);
      CallKeeps(SetPaymentStatus(s, s.calls[call].payment, Refunded), call, s.calls[call].(stage := RefundNoted));
    }
  }

  lemma RefundCloseKeeps(s: State, call: nat)
    requires Inv(s)
    ensures Inv(DoRefundClose(s, call))
  {
    hide RowsOk, LedgerAgrees, OutboxOk, OrdersOk, CallsOk, KeysOk, LocksOk, SalesOk, FailedOk;
    if AtStage(s, call, RefundNoted) {
      SetOrderStatusKeeps(s, s.calls[call].order, Expired);
      EndKeeps(SetOrderStatus(s, s.calls[call].order, Expired), call);
    }
  }

  lemma {:induction false} NotesOfUpdate(outbox: seq<Note>, k: nat, n: Note, order: Id)
    requires k < |outbox| && n.order == outbox[k].order
    ensures NotesOf(outbox[k := n], order) == NotesOf(outbox, order)
    decreases |outbox|
  {
    var last := |outbox| - 1;
    if k < last {
      assert outbox[k := n][..last] == outbox[..last][k := n];
      NotesOfUpdate(outbox[..last], k, n, order);
    } else {
      assert outbox[k := n][..last] == outbox[..last];
    }
  }

  lemma DispatchKeeps(s: State, note: nat, status: NoteStatus)
    requires Inv(s)
    ensures Inv(DoDispatch(s, note, status))
  {
    hide RowsOk, LedgerAgrees, OrdersOk, SalesOk, FailedOk, KeysOk, CallsOk, LocksOk;
    if note < |s.outbox| {
      forall order: Id
        ensures NotesOf(DoDispatch(s, note, status).outbox, order) == NotesOf(s.outbox, order)
      {
        NotesOfUpdate(s.outbox, note, s.outbox[note].(status := status), order);
      }
    }
  }

  // ---- the confirm transaction ----

  /** A failing UPDATE dooms the order: the abort is what the atomic specification asks for. */
  lemma AbortIsJustified(s: State, call: nat)
    requires LocksOk(s.locks, s.calls, s.orders, s.table)
    requires SellsNext(s, call)
    requires
      var o := s.orders[s.calls[call].order];
      var it := o.items[s.calls[call].stage.next];
      (it.row in s.locks && s.locks[it.row] == call) || !Carries(s.table, o.tenant, it.row, it.token)
    ensures Doomed(s.orders[s.calls[call].order], s.table)
  {
    var o := s.orders[s.calls[call].order];
    var n := s.calls[call].stage.next;
    if o.items[n].row in s.locks && s.locks[o.items[n].row] == call {
      assert Claims(s.calls[call], s.orders, o.items[n].row);
    }
  }

  lemma AbortKeeps(s: State, call: nat)
    requires Inv(s) && IsSelling(s, call)
    requires s.calls[call].order in s.orders && Doomed(s.orders[s.calls[call].order], s.table)
    ensures Inv(Abort(s, call))
  {
    hide RowsOk, LedgerAgrees, OrdersOk, SalesOk, OutboxOk, KeysOk, LocksOk, Doomed, ItemsKnown;
    CrashKeeps(s, call);
    var rolledBack := DoCrash(s, call).(failed := s.failed + {s.calls[call].order});
    assert Inv(rolledBack);
    var c := s.calls[call].(stage := Aborted);
    CallKeeps(rolledBack, call, c);
    assert Abort(s, call).calls == rolledBack.calls[call := c];
  }

  lemma PrefixKeepsUnderLock(locks: map<Id, nat>, t: Table, call: nat, tenant: Id, items: seq<Item>, n: nat, r: Id, owner: nat)
    requires LockedPrefix(locks, t, call, tenant, items, n) && r !in locks
    ensures LockedPrefix(locks[r := owner], t, call, tenant, items, n)
    ensures owner == call && n < |items| && items[n].row == r && Carries(t, tenant, r, items[n].token)
        ==> LockedPrefix(locks[r := owner], t, call, tenant, items, n + 1)
  {
  }

  /** A succeeding UPDATE extends the locked prefix by one. */
  lemma LockKeeps(s: State, call: nat)
    requires Inv(s) && SellsNext(s, call)
    requires
      var o := s.orders[s.calls[call].order];
      var it := o.items[s.calls[call].stage.next];
      Carries(s.table, o.tenant, it.row, it.token) && it.row !in s.locks
    ensures
      var n := s.calls[call].stage.next;
      var it := s.orders[s.calls[call].order].items[n];
      Inv(ToStage(s, call, Selling(n + 1)).(locks := s.locks[it.row := call]))
  {
    hide RowsOk, LedgerAgrees, OrdersOk, SalesOk, OutboxOk, KeysOk, FailedOk, ItemsKnown, LocksOk;
    LockKeepsLocks(s, call);
  }

  lemma LockKeepsLocks(s: State, call: nat)
    requires LocksOk(s.locks, s.calls, s.orders, s.table) && SellsNext(s, call)
    requires
      var o := s.orders[s.calls[call].order];
      var it := o.items[s.calls[call].stage.next];
      Carries(s.table, o.tenant, it.row, it.token) && it.row !in s.locks
    ensures
      var n := s.calls[call].stage.next;
      var it := s.orders[s.calls[call].order].items[n];
      var t := ToStage(s, call, Selling(n + 1)).(locks := s.locks[it.row := call]);
      LocksOk(t.locks, t.calls, t.orders, t.table)
  {
    hide LockedPrefix;
    var n := s.calls[call].stage.next;
    var items := s.orders[s.calls[call].order].items;
    var t := ToStage(s, call, Selling(n + 1)).(locks := s.locks[items[n].row := call]);
    forall r | r in t.locks ensures Claims(t.calls[t.locks[r]], t.orders, r) {
      if r in s.locks {
        assert Claims(s.calls[s.locks[r]], s.orders, r);
      }
    }
    forall c | c in t.calls ensures CallLocks(t.locks, t.table, t.orders, c, t.calls[c]) {
      assert CallLocks(s.locks, s.table, s.orders, c, s.calls[c]);
      if IsSelling(s, c) {
        var o := s.orders[s.calls[c].order];
        PrefixKeepsUnderLock(s.locks, s.table, c, o.tenant, o.items, s.calls[c].stage.next, items[n].row, call);
      }
    }
  }

  lemma ConfirmSellKeeps(s: State, call: nat)
    requires Inv(s)
    ensures Inv(DoConfirmSell(s, call))
  {
    hide RowsOk, LedgerAgrees, OrdersOk, SalesOk, OutboxOk, KeysOk, FailedOk, CallsOk, LocksOk, Doomed;
    if SellsNext(s, call) {
      var o := s.orders[s.calls[call].order];
      var it := o.items[s.calls[call].stage.next];
      if (it.row in s.locks && s.locks[it.row] == call) || !Carries(s.table, o.tenant, it.row, it.token) {
        AbortIsJustified(s, call);
        AbortKeeps(s, call);
      } else if it.row !in s.locks {
        LockKeeps(s, call);
      }
    }
  }

  /** At commit time the locks guarantee what the atomic sale needs. */
  lemma CommitIsAtomic(s: State, call: nat)
    requires LocksOk(s.locks, s.calls, s.orders, s.table)
    requires ReadyToCommit(s, call)
    ensures
      var o := s.orders[s.calls[call].order];
      AllHeld(s.table, o.tenant, o.items)
  {
    assert CallLocks(s.locks, s.table, s.orders, call, s.calls[call]);
  }

  lemma PrefixKeepsUnderSale(locks: map<Id, nat>, t: Table, call: nat, tenant: Id, items: seq<Item>, n: nat,
                             seller: Id, sold: seq<Item>)
    requires LockedPrefix(locks, t, call, tenant, items, n)
    requires forall r | r in locks :: r !in RowsOf(sold)
    ensures LockedPrefix(locks, SellAll(t, seller, sold), call, tenant, items, n)
  {
  }

  lemma SaleKeepsLocks(locks: map<Id, nat>, calls: map<nat, Call>, orders: map<Id, Order>, t: Table,
                       tenant: Id, items: seq<Item>)
    requires LocksOk(locks, calls, orders, t)
    requires forall r | r in locks :: r !in RowsOf(items)
    ensures LocksOk(locks, calls, orders, SellAll(t, tenant, items))
  {
    hide LockedPrefix;
    var u := SellAll(t, tenant, items);
    forall c | c in calls ensures CallLocks(locks, u, orders, c, calls[c]) {
      assert CallLocks(locks, t, orders, c, calls[c]);
      if calls[c].Confirming? && calls[c].stage.Selling? {
        var o := orders[calls[c].order];
        PrefixKeepsUnderSale(locks, t, c, o.tenant, o.items, calls[c].stage.next, tenant, items);
      }
    }
  }

  lemma SaleKeepsDoomed(o: Order, t: Table, tenant: Id, items: seq<Item>)
    requires Doomed(o, t)
    ensures Doomed(o, SellAll(t, tenant, items))
  {
    if k :| 0 <= k < |o.items| && !Carries(t, o.tenant, o.items[k].row, o.items[k].token) {
      assert !Carries(SellAll(t, tenant, items), o.tenant, o.items[k].row, o.items[k].token);
    }
  }

  lemma SaleKeepsSales(sales: seq<Sale>, orders: map<Id, Order>, t: Table, id: Id)
    requires SalesOk(sales, orders, t)
    requires id in orders && AllHeld(t, orders[id].tenant, orders[id].items)
    ensures SalesOk(sales + [Sale(Some(id), RowList(orders[id].items))], orders,
                    SellAll(t, orders[id].tenant, orders[id].items))
  {
    var o := orders[id];
    var rows := RowList(o.items);
    assert forall k | 0 <= k < |rows| :: rows[k] == o.items[k].row && rows[k] in RowsOf(o.items);
    AddSaleKeepsSales(sales, orders, t, SellAll(t, o.tenant, o.items), Sale(Some(id), rows));
  }

  /** Everything the commit makes visible, once the transaction's own locks are gone. */
  lemma SaleKeeps(s: State, id: Id, note: Note)
    requires Inv(s)
    requires id in s.orders && AllHeld(s.table, s.orders[id].tenant, s.orders[id].items)
    requires forall r | r in s.locks :: r !in RowsOf(s.orders[id].items)
    requires note.order == id
    ensures
      var o := s.orders[id];
      Inv(s.(table := SellAll(s.table, o.tenant, o.items),
             sales := s.sales + [Sale(Some(id), RowList(o.items))],
             outbox := s.outbox + [note]))
  {
    hide RowsOk, LedgerAgrees, OrdersOk, SalesOk, KeysOk, CallsOk, LocksOk, Doomed, SellAll;
    var o := s.orders[id];
    var sale := Sale(Some(id), RowList(o.items));
    SellAllKeepsRows(s.table, s.issued, o.tenant, o.items);
    SellAllKeepsLedger(s.table, o.tenant, o.items);
    SaleKeepsLocks(s.locks, s.calls, s.orders, s.table, o.tenant, o.items);
    SaleKeepsSales(s.sales, s.orders, s.table, id);
    forall order: Id ensures NotesOf(s.outbox + [note], order) == SalesOf(s.sales + [sale], order) {
      NotesOfAppend(s.outbox, note, order);
      SalesOfAppend(s.sales, sale, order);
    }
    forall f | f in s.failed ensures Doomed(s.orders[f], SellAll(s.table, o.tenant, o.items)) {
      SaleKeepsDoomed(s.orders[f], s.table, o.tenant, o.items);
    }
  }

  lemma ConfirmCommitKeeps(s: State, call: nat)
    requires Inv(s)
    ensures Inv(DoConfirmCommit(s, call))
  {
    hide RowsOk, LedgerAgrees, OrdersOk, SalesOk, OutboxOk, KeysOk, FailedOk, LocksOk, Doomed, SellAll, ItemsKnown;
    if ReadyToCommit(s, call) {
      var id := s.calls[call].order;
      var o := s.orders[id];
      CommitIsAtomic(s, call);
      OwnUnitsAreLocked(s, call);
      var paid := SetOrderStatus(s, id, Paid);
      SetOrderStatusKeeps(s, id, Paid);
      var unlocked := DoCrash(paid, call);
      CrashKeeps(paid, call);
      var note := Note(o.tenant, o.user, id, |o.items|, o.total, NotePending);
      SaleKeeps(unlocked, id, note);
      var sold := unlocked.(table := SellAll(s.table, o.tenant, o.items),
                            sales := s.sales + [Sale(Some(id), RowList(o.items))],
                            outbox := s.outbox + [note]);
      CallKeeps(sold, call, s.calls[call].(stage := Committed));
      assert DoConfirmCommit(s, call).calls == sold.calls[call := s.calls[call].(stage := Committed)];
    }
  }

  lemma OwnUnitsAreLocked(s: State, call: nat)
    requires LocksOk(s.locks, s.calls, s.orders, s.table)
    requires ReadyToCommit(s, call)
    ensures forall r | r in Without(s.locks, call) :: r !in RowsOf(s.orders[s.calls[call].order].items)
  {
    assert CallLocks(s.locks, s.table, s.orders, call, s.calls[call]);
  }

  // ---- every action, every run ----

  predicate WritesUnits(a: Action) {
    a.Tick? || a.CreateUnit? || a.HoldUnit? || a.ReleaseUnit? || a.SellUnit? || a.Withdraw?
  }

  lemma UnitStepKeeps(s: State, a: Action)
    requires Inv(s) && WritesUnits(a)
    ensures Inv(Step(s, a))
  {
    hide Inv, DoHold, DoRelease, DoSellUnit, DoVoid, DoCreateStart, DoCreateRead, DoCreateCommit, DoAuthorizeStart,
      DoAuthorizeRecord, DoAuthorizeFinish, DoConfirmStart, DoConfirmLoad, DoConfirmSell, DoConfirmCommit,
      DoConfirmCapture, DoRefundSend, DoRefundNote, DoRefundClose, DoCrash, DoDispatch, Insert;
    match a
    case Tick(d) => TickKeeps(s, d);
    case CreateUnit(id, tenant, event, category, seat) => CreateUnitKeeps(s, id, tenant, event, category, seat);
    case HoldUnit(tenant, id, token, user, expires) => HoldKeeps(s, tenant, id, token, user, expires);
    case ReleaseUnit(tenant, id, token) => ReleaseKeeps(s, tenant, id, token);
    case SellUnit(tenant, id, token) => SellUnitKeeps(s, tenant, id, token);
    case Withdraw(tenant, id) => VoidKeeps(s, tenant, id);
  }

  lemma StepKeeps(s: State, a: Action)
    requires Inv(s)
    ensures Inv(Step(s, a))
  {
    hide Inv, DoHold, DoRelease, DoSellUnit, DoVoid, DoCreateStart, DoCreateRead, DoCreateCommit, DoAuthorizeStart,
      DoAuthorizeRecord, DoAuthorizeFinish, DoConfirmStart, DoConfirmLoad, DoConfirmSell, DoConfirmCommit,
      DoConfirmCapture, DoRefundSend, DoRefundNote, DoRefundClose, DoCrash, DoDispatch, Insert;
    match a
    case CreateStart(tenant, user, key, wants) => CreateStartKeeps(s, tenant, user, key, wants);
    case CreateRead(call, price) => CreateReadKeeps(s, call, price);
    case CreateCommit(call, order) => CreateCommitKeeps(s, call, order);
    case AuthorizeStart(tenant, order) => AuthorizeStartKeeps(s, tenant, order);
    case AuthorizeRecord(call, payment) => AuthorizeRecordKeeps(s, call, payment);
    case AuthorizeFinish(call) => AuthorizeFinishKeeps(s, call);
    case ConfirmStart(tenant, order, payment) => ConfirmStartKeeps(s, tenant, order, payment);
    case ConfirmLoad(call) => ConfirmLoadKeeps(s, call);
    case ConfirmSell(call) => ConfirmSellKeeps(s, call);
    case ConfirmCommit(call) => ConfirmCommitKeeps(s, call);
    case ConfirmCapture(call) => ConfirmCaptureKeeps(s, call);
    case RefundSend(call) => RefundSendKeeps(s, call);
    case RefundNote(call) => RefundNoteKeeps(s, call);
    case RefundClose(call) => RefundCloseKeeps(s, call);
    case Crash(call) => CrashKeeps(s, call);
    case Dispatch(note, status) => DispatchKeeps(s, note, status);
    case _ => UnitStepKeeps(s, a);
  }

  lemma {:induction false} ExecKeeps(s: State, run: seq<Action>)
    requires Inv(s)
    ensures Inv(Exec(s, run))
    decreases run
  {
    hide Inv, Step;
    if run != [] {
      StepKeeps(s, run[0]);
      ExecKeeps(Step(s, run[0]), run[1..]);
    }
  }

  /** The invariant holds at the end of every run from the empty system. */
  lemma RunOk(run: seq<Action>)
    ensures Inv(Exec(START, run))
  {
    hide Inv, Step;
    StartOk();
    ExecKeeps(START, run);
  }

  /** A token stays on record with the unit and the expiry it was issued for. */
  lemma StepKeepsIssued(s: State, a: Action, token: Id)
    requires token in s.issued
    ensures token in Step(s, a).issued && Step(s, a).issued[token] == s.issued[token]
  {
    hide DoCreateStart, DoCreateRead, DoCreateCommit, DoAuthorizeStart, DoAuthorizeRecord, DoAuthorizeFinish,
      DoConfirmStart, DoConfirmLoad, DoConfirmSell, DoConfirmCapture, DoRefundSend, DoRefundNote, DoRefundClose,
      DoCrash, DoDispatch, Hold, Insert, SellAll;
  }

  lemma {:induction false} ExecKeepsIssued(s: State, run: seq<Action>, token: Id)
    requires token in s.issued
    ensures token in Exec(s, run).issued && Exec(s, run).issued[token] == s.issued[token]
    decreases run
  {
    hide Step;
    if run != [] {
      StepKeepsIssued(s, run[0], token);
      ExecKeepsIssued(Step(s, run[0]), run[1..], token);
    }
  }
}
