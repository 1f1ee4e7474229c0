/**
 The table `event_seat_inventory`, its CHECK and UNIQUE constraints, the trigger that
 writes `inventory_audit_log`, and the conditional UPDATEs that are the only writers.
 */
module SeatTable {
  import opened Types

  datatype Status = Available | Held | Sold | Void

  datatype Row = Row(
    tenant: Id, event: Id, category: Id, seat: Option<Id>,
    status: Status, holdToken: Option<Id>, heldBy: Option<Id>, holdExpiresAt: Option<Time>)

  /** One line of the audit log; `previous` is NULL for the line written on INSERT. */
  datatype Audit = Audit(
    tenant: Id, row: Id, previous: Option<Status>, next: Status,
    holdToken: Option<Id>, heldBy: Option<Id>)

  datatype Table = Table(rows: map<Id, Row>, ledger: seq<Audit>)

  const EMPTY := Table(map[], [])

  /** The held-iff-token CHECK. */
  predicate RowCheck(r: Row) {
    if r.status == Held then r.holdToken.Some? && r.holdExpiresAt.Some?
    else r.holdToken.None? && r.holdExpiresAt.None? && r.heldBy.None?
  }

  /** `UNIQUE (event_id, seat_id)`: general-admission units, whose seat is NULL, are exempt. */
  ghost predicate SeatsUnique(rows: map<Id, Row>) {
    forall a, b | a in rows && b in rows && a != b && rows[a].seat.Some? ::
      !(rows[a].event == rows[b].event && rows[a].seat == rows[b].seat)
  }

  ghost predicate WellFormed(t: Table) {
    && (forall id | id in t.rows :: RowCheck(t.rows[id]))
    && SeatsUnique(t.rows)
  }

  /** Writes a row and fires the audit trigger: an INSERT or a status change is logged. */
  function Put(t: Table, id: Id, r: Row): Table {
    var previous := if id in t.rows then Some(t.rows[id].status) else None;
    Table(
      t.rows[id := r],
      if previous == Some(r.status) then t.ledger
      else t.ledger + [Audit(r.tenant, id, previous, r.status, r.holdToken, r.heldBy)])
  }

  // ---- rows as the UPDATEs leave them ----

  function NewRow(tenant: Id, event: Id, category: Id, seat: Option<Id>): Row {
    Row(tenant, event, category, seat, Available, None, None, None)
  }

  function HeldRow(r: Row, token: Id, user: Id, expires: Time): Row {
    r.(status := Held, holdToken := Some(token), heldBy := Some(user), holdExpiresAt := Some(expires))
  }

  /** Every UPDATE that leaves `held` clears the three hold columns. */
  function Cleared(r: Row, status: Status): Row {
    r.(status := status, holdToken := None, heldBy := None, holdExpiresAt := None)
  }

  // ---- WHERE clauses ----

  predicate Exists(t: Table, tenant: Id, id: Id) {
    id in t.rows && t.rows[id].tenant == tenant
  }

  predicate IsAvailable(t: Table, tenant: Id, id: Id) {
    Exists(t, tenant, id) && t.rows[id].status == Available
  }

  /** `status = 'held' AND hold_token = token`, the guard of both Release and ConfirmSale. */
  predicate Carries(t: Table, tenant: Id, id: Id, token: Id) {
    Exists(t, tenant, id) && t.rows[id].status == Held && t.rows[id].holdToken == Some(token)
  }

  predicate CanInsert(t: Table, id: Id, event: Id, seat: Option<Id>) {
    && id !in t.rows
    && (seat.Some? ==> forall k | k in t.rows :: !(t.rows[k].event == event && t.rows[k].seat == seat))
  }

  // ---- the statements ----

  function Insert(t: Table, id: Id, tenant: Id, event: Id, category: Id, seat: Option<Id>): Table {
    if CanInsert(t, id, event, seat) then Put(t, id, NewRow(tenant, event, category, seat)) else t
  }

  function Hold(t: Table, tenant: Id, id: Id, token: Id, user: Id, expires: Time): Table {
    if IsAvailable(t, tenant, id) then Put(t, id, HeldRow(t.rows[id], token, user, expires)) else t
  }

  function Release(t: Table, tenant: Id, id: Id, token: Id): Table {
    if Carries(t, tenant, id, token) then Put(t, id, Cleared(t.rows[id], Available)) else t
  }

  function ConfirmSale(t: Table, tenant: Id, id: Id, token: Id): Table {
    if Carries(t, tenant, id, token) then Put(t, id, Cleared(t.rows[id], Sold)) else t
  }

  function VoidUnit(t: Table, tenant: Id, id: Id): Table {
    if Exists(t, tenant, id) then Put(t, id, Cleared(t.rows[id], Void)) else t
  }

  // ---- selling every item of an order ----

  /** An `order_items` row: the unit and the hold token captured when the order was created. */
  datatype Item = Item(row: Id, token: Id, price: Money)

  ghost predicate DistinctRows(items: seq<Item>) {
    forall i, j | 0 <= i < j < |items| :: items[i].row != items[j].row
  }

  /** What must hold of the committed table for the confirm transaction to succeed. */
  ghost predicate AllHeld(t: Table, tenant: Id, items: seq<Item>) {
    && DistinctRows(items)
    && forall k | 0 <= k < |items| :: Carries(t, tenant, items[k].row, items[k].token)
  }

  function RowsOf(items: seq<Item>): set<Id> {
    set k | 0 <= k < |items| :: items[k].row
  }

  /** All of an order's units sold at one instant: the committed effect of the transaction. */
  function SellAll(t: Table, tenant: Id, items: seq<Item>): Table {
    var names := RowsOf(items);
    Table(
      map id | id in t.rows :: if id in names then Cleared(t.rows[id], Sold) else t.rows[id],
      t.ledger + seq(|items|, k requires 0 <= k < |items| =>
        Audit(tenant, items[k].row, Some(Held), Sold, None, None)))
  }

  /** The transaction as written: one ConfirmSale per item, given up at the first that matches no row. */
  function SellInTurn(t: Table, tenant: Id, items: seq<Item>): Option<Table> {
    if items == [] then Some(t)
    else
      var last := items[|items| - 1];
      match SellInTurn(t, tenant, items[..|items| - 1])
      case None => None
      case Some(u) =>
        if Carries(u, tenant, last.row, last.token) then Some(ConfirmSale(u, tenant, last.row, last.token))
        else None
  }

  /** Extending an atomic sale by one item is one more ConfirmSale. */
  lemma SellOneMore(t: Table, tenant: Id, items: seq<Item>)
    requires items != []
    requires AllHeld(t, tenant, items[..|items| - 1])
    ensures
      var last := items[|items| - 1];
      var u := SellAll(t, tenant, items[..|items| - 1]);
      && (Carries(u, tenant, last.row, last.token) <==> AllHeld(t, tenant, items))
      && (AllHeld(t, tenant, items) ==> SellAll(t, tenant, items) == ConfirmSale(u, tenant, last.row, last.token))
  {
    var n := |items| - 1;
    var front := items[..n];
    assert forall k | 0 <= k < n :: front[k] == items[k];
    assert RowsOf(items) == RowsOf(front) + {items[n].row};
    if AllHeld(t, tenant, items) {
      var v := ConfirmSale(SellAll(t, tenant, front), tenant, items[n].row, items[n].token);
      assert SellAll(t, tenant, items).rows == v.rows;
    }
  }

  /**
   The loop of conditional UPDATEs refines the atomic sale: it gets through exactly when the
   items name distinct units that are all held under their stored tokens at the start.
   */
  lemma {:induction false} InTurnIsAtomic(t: Table, tenant: Id, items: seq<Item>)
    ensures SellInTurn(t, tenant, items)
         == if AllHeld(t, tenant, items) then Some(SellAll(t, tenant, items)) else None
  {
    if items == [] {
      assert SellAll(t, tenant, items).rows == t.rows;
      assert SellAll(t, tenant, items).ledger == t.ledger;
    } else {
      var front := items[..|items| - 1];
      InTurnIsAtomic(t, tenant, front);
      assert forall k | 0 <= k < |front| :: front[k] == items[k];
      if AllHeld(t, tenant, front) {
        SellOneMore(t, tenant, items);
      }
    }
  }
}
