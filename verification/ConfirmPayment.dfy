/**
 `ConfirmPayment` as code: reads, the WithTx loop with its rollback, the capture, and the
 compensating refund, with an infrastructure failure possible at every call. The method is
 proved against an atomic description of its effect.
 */
module ConfirmPayment {
  import opened Types
  import opened SeatTable
  import opened Purchase
  import opened Repositories

  /**
   Which calls fail. `read` and `statement` give the ordinal of the read before the transaction
   and of the statement inside it (the commit counts as the last) that fails; a number past the
   end means none does.
   */
  datatype Faults = Faults(read: nat, statement: nat, capture: bool, refund: bool, note: bool, close: bool)

  datatype Outcome =
    | Done             // confirmed now or before
    | NotFound         // no such order or payment of this tenant
    | WrongPayment     // the payment belongs to another order
    | Unavailable      // an infrastructure error before anything was committed
    | CaptureFailed    // sold and paid, but the payment was not marked captured
    | HoldsLost        // an invalid hold: refunded and closed
    | RefundFailed     // an invalid hold, and the compensation stopped half-way

  datatype TxResult = Sealed | HoldInvalid | Broken

  function Min(a: nat, b: nat): nat {
    if a < b then a else b
  }

  // ---- the atomic description ----

  function Table0(b: Snapshot): Table {
    Table(b.rows, b.ledger)
  }

  function Confirmed(b: Snapshot, order: Id): Snapshot
    requires order in b.orders
  {
    var o := b.orders[order];
    var sold := SellAll(Table0(b), o.tenant, o.items);
    b.(rows := sold.rows, ledger := sold.ledger,
       orders := b.orders[order := o.(status := Paid)],
       outbox := b.outbox + [Note(o.tenant, o.user, order, |o.items|, o.total, NotePending)])
  }

  function WithPayment(b: Snapshot, payment: Id, status: PaymentStatus): Snapshot
    requires payment in b.payments
  {
    b.(payments := b.payments[payment := b.payments[payment].(status := status)])
  }

  function WithOrder(b: Snapshot, order: Id, status: OrderStatus): Snapshot
    requires order in b.orders
  {
    b.(orders := b.orders[order := b.orders[order].(status := status)])
  }

  function Refunding(b: Snapshot, order: Id, payment: Id, f: Faults): (Snapshot, Outcome)
    requires order in b.orders && payment in b.payments
  {
    if f.refund || f.note then (b, RefundFailed)
    else
      var c := WithPayment(b, payment, Refunded);
      if f.close then (c, RefundFailed) else (WithOrder(c, order, Expired), HoldsLost)
  }

  /** The transaction meets an invalid hold before it meets the fault. */
  ghost predicate LosesHolds(b: Snapshot, order: Id, f: Faults)
    requires order in b.orders
  {
    var o := b.orders[order];
    !AllHeld(Table0(b), o.tenant, o.items[..Min(f.statement, |o.items|)])
  }

  ghost function Effect(b: Snapshot, tenant: Id, order: Id, payment: Id, f: Faults): (Snapshot, Outcome) {
    if f.read == 0 then (b, Unavailable)
    else if order !in b.orders || b.orders[order].tenant != tenant then (b, NotFound)
    else if b.orders[order].status == Paid then (b, Done)
    else if f.read == 1 then (b, Unavailable)
    else if payment !in b.payments || b.payments[payment].tenant != tenant then (b, NotFound)
    else if b.payments[payment].order != order then (b, WrongPayment)
    else if f.read == 2 then (b, Unavailable)
    else if LosesHolds(b, order, f) then Refunding(b, order, payment, f)
    else if f.statement <= |b.orders[order].items| + 2 then (b, Unavailable)
    else if f.capture then (Confirmed(b, order), CaptureFailed)
    else (WithPayment(Confirmed(b, order), payment, Captured), Done)
  }

  // ---- the code ----

  /** The next ConfirmSale of the loop matches exactly when the items so far and this one are sellable together. */
  lemma NextSale(before: Table, tenant: Id, items: seq<Item>, i: nat, now: Table)
    requires i < |items| && SellInTurn(before, tenant, items[..i]) == Some(now)
    ensures AllHeld(before, tenant, items[..i])
    ensures Carries(now, tenant, items[i].row, items[i].token) <==> AllHeld(before, tenant, items[..i + 1])
    ensures AllHeld(before, tenant, items[..i + 1]) ==>
      SellInTurn(before, tenant, items[..i + 1]) == Some(SeatTable.ConfirmSale(now, tenant, items[i].row, items[i].token))
  {
    InTurnIsAtomic(before, tenant, items[..i]);
    assert items[..i + 1][..i] == items[..i] && items[..i + 1][i] == items[i];
    InTurnIsAtomic(before, tenant, items[..i + 1]);
    hide AllHeld, Carries, SellAll, SeatTable.ConfirmSale;
  }

  /** What is met first: an item that cannot be sold, or the failing statement. */
  lemma FirstStop(t: Table, tenant: Id, items: seq<Item>, faultAt: nat, i: nat)
    requires i <= |items| && i <= faultAt && AllHeld(t, tenant, items[..i])
    ensures i == faultAt || i == |items| ==> AllHeld(t, tenant, items[..Min(faultAt, |items|)])
    ensures i == |items| ==> AllHeld(t, tenant, items)
    ensures i < |items| && i < faultAt && !AllHeld(t, tenant, items[..i + 1]) ==>
      !AllHeld(t, tenant, items[..Min(faultAt, |items|)]) && !AllHeld(t, tenant, items)
  {
    var n := Min(faultAt, |items|);
    if i < n {
      assert items[..n][..i + 1] == items[..i + 1];
      PrefixAllHeld(t, tenant, items[..n], i + 1);
      PrefixAllHeld(t, tenant, items, i + 1);
    }
    assert items[..|items|] == items;
  }

  /** The loop of the transaction: all items are sold, one is not sellable, or a statement fails. */
  method SellItems(db: Database, tenant: Id, items: seq<Item>, faultAt: nat) returns (r: TxResult)
    modifies db`rows, db`ledger
    ensures r == HoldInvalid <==> !AllHeld(old(db.Units()), tenant, items[..Min(faultAt, |items|)])
    ensures r == Sealed <==> AllHeld(old(db.Units()), tenant, items) && faultAt >= |items|
    ensures r == Sealed ==> db.Units() == SellAll(old(db.Units()), tenant, items)
  {
    ghost var before := db.Units();
    assert SellInTurn(before, tenant, items[..0]) == Some(before);
    hide AllHeld, SellInTurn, SellAll, Carries, SeatTable.ConfirmSale;
    for i := 0 to |items|
      invariant i <= faultAt
      invariant SellInTurn(before, tenant, items[..i]) == Some(db.Units())
    {
      NextSale(before, tenant, items, i, db.Units());
      FirstStop(before, tenant, items, faultAt, i);
      if i == faultAt {
        PrefixAllHeld(before, tenant, items, i);
        return Broken;
      }
      var sold := db.ConfirmSale(tenant, items[i].row, items[i].token);
      if !sold {
        return HoldInvalid;
      }
    }
    InTurnIsAtomic(before, tenant, items[..|items|]);
    assert items[..|items|] == items;
    FirstStop(before, tenant, items, faultAt, |items|);
    r := Sealed;
  }

  /**
   The function passed to WithTx, with its commit or rollback: it commits exactly when all items
   are distinct units held under their stored tokens and no statement fails, and then the effect
   is the atomic sale; otherwise every table is as before.
   */
  method RunTransaction(db: Database, tenant: Id, id: Id, faultAt: nat) returns (r: TxResult)
    requires id in db.orders && db.orders[id].tenant == tenant
    modifies db
    ensures r == Sealed <==>
      && AllHeld(old(db.Units()), tenant, old(db.orders[id].items))
      && faultAt > |old(db.orders[id].items)| + 2
    ensures r == HoldInvalid <==> LosesHolds(old(db.Save()), id, Faults(3, faultAt, false, false, false, false))
    ensures db.Save() == if r == Sealed then Confirmed(old(db.Save()), id) else old(db.Save())
  {
    hide AllHeld, SellAll;
    var saved := db.Save();
    var order := db.orders[id];
    var items := order.items;
    r := SellItems(db, tenant, items, faultAt);
    if r == Sealed && faultAt > |items| {
      var found := db.SetOrderStatus(tenant, id, Paid);
      if faultAt > |items| + 1 {
        db.outbox := db.outbox + [Note(tenant, order.user, id, |items|, order.total, NotePending)];
        if faultAt > |items| + 2 {
          return Sealed;
        }
      }
    }
    db.Rollback(saved);
    r := if r == HoldInvalid then HoldInvalid else Broken;
  }

  lemma PrefixAllHeld(t: Table, tenant: Id, items: seq<Item>, n: nat)
    requires n <= |items|
    ensures AllHeld(t, tenant, items) ==> AllHeld(t, tenant, items[..n])
  {
  }

  /** The gateway is asked to refund the payment's whole amount, and then the rows are updated. */
  method RefundAndFail(db: Database, tenant: Id, order: Id, payment: Id, f: Faults) returns (r: Outcome, asked: Money)
    requires order in db.orders && db.orders[order].tenant == tenant
    requires payment in db.payments && db.payments[payment].tenant == tenant
    modifies db
    ensures (db.Save(), r) == Refunding(old(db.Save()), order, payment, f)
    ensures asked == old(db.payments)[payment].amount
  {
    asked := db.payments[payment].amount;
    if f.refund { return RefundFailed, asked; }
    if f.note { return RefundFailed, asked; }
    var noted := db.SetPaymentStatus(tenant, payment, Refunded);
    if f.close { return RefundFailed, asked; }
    var closed := db.SetOrderStatus(tenant, order, Expired);
    return HoldsLost, asked;
  }

  /** The whole call, and the refund it asked the gateway for, if it did: the amount of its own payment. */
  method Confirm(db: Database, tenant: Id, order: Id, payment: Id, f: Faults) returns (r: Outcome, refund: Option<Money>)
    modifies db
    ensures (db.Save(), r) == Effect(old(db.Save()), tenant, order, payment, f)
    ensures refund.Some? <==> r == HoldsLost || r == RefundFailed
    ensures refund.Some? ==> payment in old(db.payments) && refund.value == old(db.payments)[payment].amount
  {
    refund := None;
    if f.read == 0 { return Unavailable, refund; }
    if order !in db.orders || db.orders[order].tenant != tenant { return NotFound, refund; }
    if db.orders[order].status == Paid { return Done, refund; }
    if f.read == 1 { return Unavailable, refund; }
    if payment !in db.payments || db.payments[payment].tenant != tenant { return NotFound, refund; }
    if db.payments[payment].order != order { return WrongPayment, refund; }
    if f.read == 2 { return Unavailable, refund; }
    var tx := RunTransaction(db, tenant, order, f.statement);
    match tx
    case HoldInvalid =>
      var asked;
      r, asked := RefundAndFail(db, tenant, order, payment, f);
      refund := Some(asked);
    case Broken => r := Unavailable;
    case Sealed =>
      if f.capture { return CaptureFailed, refund; }
      var captured := db.SetPaymentStatus(tenant, payment, Captured);
      r := Done;
  }

  // ---- what the description promises ----

  /** A replayed webhook for an order that was confirmed changes nothing and reports success. */
  lemma ReplayIsNoOp(b: Snapshot, tenant: Id, order: Id, payment: Id, f: Faults, again: Faults)
    requires Effect(b, tenant, order, payment, f).1 == Done || Effect(b, tenant, order, payment, f).1 == CaptureFailed
    requires again.read > 0
    ensures
      var c := Effect(b, tenant, order, payment, f).0;
      Effect(c, tenant, order, payment, again) == (c, Done)
  {
  }

  /** An infrastructure failure before the commit leaves the database ready for the same call. */
  lemma RetryAfterFailure(b: Snapshot, tenant: Id, order: Id, payment: Id, f: Faults, again: Faults)
    requires Effect(b, tenant, order, payment, f).1 == Unavailable
    ensures Effect(b, tenant, order, payment, f).0 == b
    ensures Effect(Effect(b, tenant, order, payment, f).0, tenant, order, payment, again)
         == Effect(b, tenant, order, payment, again)
  {
  }

  /** No partial sales: the units, the log and the outbox change together with the order, or not at all. */
  lemma AllOrNothing(b: Snapshot, tenant: Id, order: Id, payment: Id, f: Faults)
    ensures
      var c := Effect(b, tenant, order, payment, f).0;
      || (c.rows == b.rows && c.ledger == b.ledger && c.outbox == b.outbox)
      || (&& order in b.orders
          && AllHeld(Table0(b), tenant, b.orders[order].items)
          && Table(c.rows, c.ledger) == SellAll(Table0(b), tenant, b.orders[order].items)
          && c.orders == b.orders[order := b.orders[order].(status := Paid)]
          && |c.outbox| == |b.outbox| + 1 && c.outbox[..|b.outbox|] == b.outbox
          && var note := c.outbox[|b.outbox|];
             && note.order == order && note.tenant == b.orders[order].tenant && note.user == b.orders[order].user
             && note.itemCount == |b.orders[order].items| && note.total == b.orders[order].total
             && note.status == NotePending)
  {
    if order in b.orders {
      var items := b.orders[order].items;
      if f.statement > |items| + 2 {
        assert items[..Min(f.statement, |items|)] == items;
      }
    }
  }

  /** Replaying a confirmation that lost its holds asks for the refund again and ends in the same state. */
  lemma RefundReplayIsStable(b: Snapshot, tenant: Id, order: Id, payment: Id, f: Faults)
    requires Effect(b, tenant, order, payment, f).1 == HoldsLost
    ensures
      var c := Effect(b, tenant, order, payment, f).0;
      Effect(c, tenant, order, payment, f) == (c, HoldsLost)
  {
    var c := Effect(b, tenant, order, payment, f).0;
    assert c.orders[order].items == b.orders[order].items;
    assert c.orders == c.orders[order := c.orders[order].(status := Expired)];
    assert c.payments == c.payments[payment := c.payments[payment].(status := Refunded)];
  }

  // ---- the outcomes in plain words ----

  /** The order and the payment are found, belong together, and the order is not paid yet. */
  predicate Due(b: Snapshot, tenant: Id, order: Id, payment: Id, f: Faults) {
    && f.read > 2 && order in b.orders && b.orders[order].tenant == tenant && b.orders[order].status != Paid
    && payment in b.payments && b.payments[payment].tenant == tenant && b.payments[payment].order == order
  }

  /** The units of the items are sold, cleared of their holds, and no other unit has changed. */
  ghost predicate UnitsSold(b: Snapshot, c: Snapshot, items: seq<Item>) {
    && c.rows.Keys == b.rows.Keys
    && (forall k | 0 <= k < |items| :: items[k].row in c.rows && c.rows[items[k].row].status == Sold
          && c.rows[items[k].row].holdToken.None? && c.rows[items[k].row].heldBy.None? && c.rows[items[k].row].holdExpiresAt.None?)
    && (forall id | id in b.rows && (forall k | 0 <= k < |items| :: items[k].row != id) :: c.rows[id] == b.rows[id])
  }

  lemma SoldInPlainWords(b: Snapshot, order: Id)
    requires order in b.orders && AllHeld(Table0(b), b.orders[order].tenant, b.orders[order].items)
    ensures UnitsSold(b, Confirmed(b, order), b.orders[order].items)
  {
    var items := b.orders[order].items;
    var c := Confirmed(b, order);
    forall k | 0 <= k < |items| ensures items[k].row in c.rows && c.rows[items[k].row] == Cleared(b.rows[items[k].row], Sold) {
      assert Carries(Table0(b), b.orders[order].tenant, items[k].row, items[k].token);
      assert items[k].row in RowsOf(items);
    }
  }

  /**
   When a confirmation succeeds, and what it then has done: the units are sold, the order is paid,
   the payment captured, and the buyer's confirmation enqueued.
   */
  lemma DoneMeans(b: Snapshot, tenant: Id, order: Id, payment: Id, f: Faults)
    ensures
      var (c, r) := Effect(b, tenant, order, payment, f);
      && (r == Done <==>
            || (f.read > 0 && order in b.orders && b.orders[order].tenant == tenant && b.orders[order].status == Paid)
            || (&& Due(b, tenant, order, payment, f) && AllHeld(Table0(b), tenant, b.orders[order].items)
                && f.statement > |b.orders[order].items| + 2 && !f.capture))
      && (r == CaptureFailed <==>
            && Due(b, tenant, order, payment, f) && AllHeld(Table0(b), tenant, b.orders[order].items)
            && f.statement > |b.orders[order].items| + 2 && f.capture)
      && (r == Done || r == CaptureFailed ==>
            if b.orders[order].status == Paid then c == b
            else
              && UnitsSold(b, c, b.orders[order].items)
              && c.orders == b.orders[order := b.orders[order].(status := Paid)]
              && c.payments == (if r == Done then b.payments[payment := b.payments[payment].(status := Captured)] else b.payments)
              && c.outbox == b.outbox + [Note(tenant, b.orders[order].user, order, |b.orders[order].items|, b.orders[order].total, NotePending)])
  {
    hide SellAll, AllHeld;
    if order in b.orders {
      var items := b.orders[order].items;
      if f.statement > |items| + 2 {
        assert items[..Min(f.statement, |items|)] == items;
      }
      if b.orders[order].tenant == tenant && AllHeld(Table0(b), tenant, items) {
        SoldInPlainWords(b, order);
      }
    }
    hide UnitsSold;
  }

  /**
   When a confirmation gives up, and what it then has done: nothing before the transaction; after a
   lost hold the refund is asked for, the payment is marked refunded and the order expired, in that
   order, as far as the calls go through.
   */
  lemma GivingUpMeans(b: Snapshot, tenant: Id, order: Id, payment: Id, f: Faults)
    ensures
      var (c, r) := Effect(b, tenant, order, payment, f);
      && (r == HoldsLost || r == RefundFailed <==>
            && Due(b, tenant, order, payment, f)
            && !AllHeld(Table0(b), tenant, b.orders[order].items[..Min(f.statement, |b.orders[order].items|)]))
      && (r == HoldsLost ==>
            && !f.refund && !f.note && !f.close
            && c == b.(orders := b.orders[order := b.orders[order].(status := Expired)],
                       payments := b.payments[payment := b.payments[payment].(status := Refunded)]))
      && (r == RefundFailed ==>
            && (f.refund || f.note || f.close)
            && c == if f.refund || f.note then b
                    else b.(payments := b.payments[payment := b.payments[payment].(status := Refunded)]))
      && (r == NotFound || r == WrongPayment || r == Unavailable ==> c == b)
      && (r == NotFound <==>
            || (f.read > 0 && (order !in b.orders || b.orders[order].tenant != tenant))
            || (&& f.read > 1 && order in b.orders && b.orders[order].tenant == tenant && b.orders[order].status != Paid
                && (payment !in b.payments || b.payments[payment].tenant != tenant)))
      && (r == WrongPayment <==>
            && f.read > 1 && order in b.orders && b.orders[order].tenant == tenant && b.orders[order].status != Paid
            && payment in b.payments && b.payments[payment].tenant == tenant && b.payments[payment].order != order)
  {
    hide AllHeld, SellAll;
  }
}
