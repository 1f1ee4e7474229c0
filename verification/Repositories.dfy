/** The Postgres repositories: one object whose fields are the tables, one method per statement. */
module Repositories {
  import opened Types
  import opened SeatTable
  import opened Purchase

  /** The tables as they were when a transaction began, for the rollback. */
  datatype Snapshot = Snapshot(
    rows: map<Id, Row>, ledger: seq<Audit>, orders: map<Id, Order>, payments: map<Id, Payment>, outbox: seq<Note>)

  /** A unit to be inserted; its identifier is already drawn. */
  datatype NewUnit = NewUnit(id: Id, tenant: Id, event: Id, category: Id, seat: Option<Id>)

  /** The batch of INSERTs, refused as a whole when one of them violates a key. */
  function InsertAll(t: Table, units: seq<NewUnit>): Option<Table> {
    if units == [] then Some(t)
    else
      var u := units[|units| - 1];
      match InsertAll(t, units[..|units| - 1])
      case None => None
      case Some(w) =>
        if CanInsert(w, u.id, u.event, u.seat) then Some(Insert(w, u.id, u.tenant, u.event, u.category, u.seat))
        else None
  }

  /** The tenant's unit is held, and under this token. */
  predicate HeldUnder(r: Row, tenant: Id, token: Id) {
    r.tenant == tenant && r.status == Held && r.holdToken == Some(token)
  }

  /** The same unit in another status, without the columns of a hold. */
  function Unheld(r: Row, status: Status): Row {
    Row(r.tenant, r.event, r.category, r.seat, status, None, None, None)
  }

  class Database {
    var rows: map<Id, Row>
    var ledger: seq<Audit>
    var orders: map<Id, Order>
    var payments: map<Id, Payment>
    var outbox: seq<Note>

    constructor ()
      ensures Units() == EMPTY && orders == map[] && payments == map[] && outbox == []
    {
      rows, ledger, orders, payments, outbox := map[], [], map[], map[], [];
    }

    function Units(): Table
      reads this
    {
      Table(rows, ledger)
    }

    function Save(): Snapshot
      reads this
    {
      Snapshot(rows, ledger, orders, payments, outbox)
    }

    method Rollback(saved: Snapshot)
      modifies this
      ensures Save() == saved
    {
      rows, ledger, orders, payments, outbox := saved.rows, saved.ledger, saved.orders, saved.payments, saved.outbox;
    }

    /** Writes one row; the AFTER trigger appends to the log on INSERT or on a change of status. */
    method Write(id: Id, r: Row)
      modifies this`rows, this`ledger
      ensures Units() == Put(old(Units()), id, r)
      ensures rows == old(rows)[id := r]
      ensures
        var previous := if id in old(rows) then Some(old(rows)[id].status) else None;
        ledger == old(ledger) + if previous == Some(r.status) then [] else
          [Audit(r.tenant, id, previous, r.status, r.holdToken, r.heldBy)]
    {
      var previous := if id in rows then Some(rows[id].status) else None;
      rows := rows[id := r];
      if previous != Some(r.status) {
        ledger := ledger + [Audit(r.tenant, id, previous, r.status, r.holdToken, r.heldBy)];
      }
    }

    method BulkCreate(units: seq<NewUnit>) returns (ok: bool)
      modifies this`rows, this`ledger
      ensures ok <==> KeysAdmit(old(rows), units)
      ensures ok ==> AddsUnits(old(rows), rows, units)
      ensures ok <==> InsertAll(old(Units()), units).Some?
      ensures Units() == if ok then InsertAll(old(Units()), units).value else old(Units())
    {
      BatchAddsExactlyItsUnits(Units(), units);
      hide KeysAdmit, AddsUnits;
      var savedRows, savedLedger := rows, ledger;
      for i := 0 to |units|
        invariant InsertAll(old(Units()), units[..i]) == Some(Units())
      {
        var u := units[i];
        assert units[..i + 1][..i] == units[..i];
        if !CanInsert(Table(rows, ledger), u.id, u.event, u.seat) {
          InsertAllStuck(old(Units()), units, i + 1);
          rows, ledger := savedRows, savedLedger;
          return false;
        }
        Write(u.id, NewRow(u.tenant, u.event, u.category, u.seat));
      }
      assert units[..|units|] == units;
      return true;
    }

    method Hold(tenant: Id, id: Id, token: Id, user: Id, expires: Time) returns (won: bool)
      modifies this`rows, this`ledger
      ensures won <==> id in old(rows) && old(rows)[id].tenant == tenant && old(rows)[id].status == Available
      ensures won ==>
        && rows == old(rows)[id := old(rows)[id].(status := Held, holdToken := Some(token), heldBy := Some(user), holdExpiresAt := Some(expires))]
        && ledger == old(ledger) + [Audit(tenant, id, Some(Available), Held, Some(token), Some(user))]
      ensures !won ==> rows == old(rows) && ledger == old(ledger)
      ensures won <==> IsAvailable(old(Units()), tenant, id)
      ensures Units() == SeatTable.Hold(old(Units()), tenant, id, token, user, expires)
    {
      won := id in rows && rows[id].tenant == tenant && rows[id].status == Available;
      if won {
        Write(id, HeldRow(rows[id], token, user, expires));
      }
    }

    method Release(tenant: Id, id: Id, token: Id) returns (won: bool)
      modifies this`rows, this`ledger
      ensures won <==> id in old(rows) && HeldUnder(old(rows)[id], tenant, token)
      ensures won ==>
        && rows == old(rows)[id := Unheld(old(rows)[id], Available)]
        && ledger == old(ledger) + [Audit(tenant, id, Some(Held), Available, None, None)]
      ensures !won ==> rows == old(rows) && ledger == old(ledger)
      ensures won <==> Carries(old(Units()), tenant, id, token)
      ensures Units() == SeatTable.Release(old(Units()), tenant, id, token)
    {
      won := id in rows && rows[id].tenant == tenant && rows[id].status == Held && rows[id].holdToken == Some(token);
      if won {
        Write(id, Cleared(rows[id], Available));
      }
    }

    method ConfirmSale(tenant: Id, id: Id, token: Id) returns (won: bool)
      modifies this`rows, this`ledger
      ensures won <==> id in old(rows) && HeldUnder(old(rows)[id], tenant, token)
      ensures won ==>
        && rows == old(rows)[id := Unheld(old(rows)[id], Sold)]
        && ledger == old(ledger) + [Audit(tenant, id, Some(Held), Sold, None, None)]
      ensures !won ==> rows == old(rows) && ledger == old(ledger)
      ensures won <==> Carries(old(Units()), tenant, id, token)
      ensures Units() == SeatTable.ConfirmSale(old(Units()), tenant, id, token)
    {
      won := id in rows && rows[id].tenant == tenant && rows[id].status == Held && rows[id].holdToken == Some(token);
      if won {
        Write(id, Cleared(rows[id], Sold));
      }
    }

    method VoidUnit(tenant: Id, id: Id) returns (found: bool)
      modifies this`rows, this`ledger
      ensures found <==> id in old(rows) && old(rows)[id].tenant == tenant
      ensures found ==> rows == old(rows)[id := Unheld(old(rows)[id], Void)]
      ensures !found ==> rows == old(rows) && ledger == old(ledger)
      ensures found <==> Exists(old(Units()), tenant, id)
      ensures Units() == SeatTable.VoidUnit(old(Units()), tenant, id)
    {
      found := id in rows && rows[id].tenant == tenant;
      if found {
        Write(id, Cleared(rows[id], Void));
      }
    }

    method SetOrderStatus(tenant: Id, id: Id, status: OrderStatus) returns (found: bool)
      modifies this`orders
      ensures found <==> id in old(orders) && old(orders)[id].tenant == tenant
      ensures orders == if found then old(orders)[id := old(orders)[id].(status := status)] else old(orders)
    {
      found := id in orders && orders[id].tenant == tenant;
      if found {
        orders := orders[id := orders[id].(status := status)];
      }
    }

    method SetPaymentStatus(tenant: Id, id: Id, status: PaymentStatus) returns (found: bool)
      modifies this`payments
      ensures found <==> id in old(payments) && old(payments)[id].tenant == tenant
      ensures payments == if found then old(payments)[id := old(payments)[id].(status := status)] else old(payments)
    {
      found := id in payments && payments[id].tenant == tenant;
      if found {
        payments := payments[id := payments[id].(status := status)];
      }
    }
  }

  /** Once an INSERT is refused, the batch is. */
  lemma {:induction false} InsertAllStuck(t: Table, units: seq<NewUnit>, n: nat)
    requires n <= |units| && InsertAll(t, units[..n]).None?
    ensures InsertAll(t, units).None?
    decreases |units| - n
  {
    if n == |units| {
      assert units[..n] == units;
    } else {
      assert units[..n + 1][..n] == units[..n];
      InsertAllStuck(t, units, n + 1);
    }
  }

  function IdsOf(units: seq<NewUnit>): set<Id> {
    set k | 0 <= k < |units| :: units[k].id
  }

  /** The row asked for: this unit of this event and category at this seat, available and held by nobody. */
  ghost predicate IsUnit(r: Row, u: NewUnit) {
    && r.tenant == u.tenant && r.event == u.event && r.category == u.category && r.seat == u.seat
    && r.status == Available && r.holdToken.None? && r.heldBy.None? && r.holdExpiresAt.None?
  }

  /** The rows of w are those of t and, under new identifiers, exactly the units asked for. */
  ghost predicate AddsUnits(t: map<Id, Row>, w: map<Id, Row>, units: seq<NewUnit>) {
    && |IdsOf(units)| == |units|
    && (forall id | id in w :: id in t || id in IdsOf(units))
    && (forall id | id in t :: id in w && id !in IdsOf(units) && w[id] == t[id])
    && (forall i | 0 <= i < |units| :: units[i].id in w && IsUnit(w[units[i].id], units[i]))
  }

  /**
   What the keys of the table ask of a batch: identifiers that are new and pairwise distinct, and
   among the rows and the units no two of one event that name the same seat.
   */
  ghost predicate KeysAdmit(rows: map<Id, Row>, units: seq<NewUnit>) {
    && (forall i | 0 <= i < |units| :: units[i].id !in rows)
    && (forall i, j | 0 <= i < j < |units| :: units[i].id != units[j].id)
    && (forall i, id | 0 <= i < |units| && id in rows && units[i].seat.Some? ::
          !(rows[id].event == units[i].event && rows[id].seat == units[i].seat))
    && (forall i, j | 0 <= i < j < |units| && units[i].seat.Some? ::
          !(units[i].event == units[j].event && units[i].seat == units[j].seat))
  }

  lemma MoreIds(units: seq<NewUnit>)
    requires units != []
    ensures IdsOf(units) == IdsOf(units[..|units| - 1]) + {units[|units| - 1].id}
  {
  }

  /** One more unit passes the keys after the others exactly when all together pass them at the start. */
  lemma OneMoreUnit(t: Table, w: Table, units: seq<NewUnit>)
    requires units != [] && AddsUnits(t.rows, w.rows, units[..|units| - 1]) && KeysAdmit(t.rows, units[..|units| - 1])
    ensures
      var u := units[|units| - 1];
      CanInsert(w, u.id, u.event, u.seat) <==> KeysAdmit(t.rows, units)
  {
    var n := |units| - 1;
    var u, front := units[n], units[..n];
    assert forall i | 0 <= i < n :: front[i] == units[i];
    if CanInsert(w, u.id, u.event, u.seat) {
      forall i | 0 <= i < n
        ensures units[i].id != u.id
        ensures units[i].seat.Some? ==> !(units[i].event == u.event && units[i].seat == u.seat)
      {
        assert front[i].id in w.rows && IsUnit(w.rows[front[i].id], front[i]);
      }
      assert u.id !in t.rows;
    }
    if KeysAdmit(t.rows, units) {
      forall id | id in w.rows && u.seat.Some? ensures !(w.rows[id].event == u.event && w.rows[id].seat == u.seat) {
        if id !in t.rows {
          var i :| 0 <= i < n && front[i].id == id;
          assert IsUnit(w.rows[front[i].id], front[i]);
        }
      }
      assert u.id !in IdsOf(front);
    }
  }

  lemma AddOneMore(t: map<Id, Row>, w: map<Id, Row>, units: seq<NewUnit>, r: Row)
    requires units != [] && AddsUnits(t, w, units[..|units| - 1])
    requires units[|units| - 1].id !in w && IsUnit(r, units[|units| - 1])
    ensures AddsUnits(t, w[units[|units| - 1].id := r], units)
  {
    hide IsUnit;
    var n := |units| - 1;
    var front := units[..n];
    MoreIds(units);
    forall i | 0 <= i < n ensures units[i].id in w && IsUnit(w[units[i].id], units[i]) && units[i].id in IdsOf(front) {
      assert front[i] == units[i] && front[i].id in w && IsUnit(w[front[i].id], front[i]);
    }
    forall id | id in IdsOf(front) ensures id in w {
      var i :| 0 <= i < n && front[i].id == id;
    }
    hide IdsOf;
  }

  /**
   The loop of INSERTs goes in exactly when the keys admit the batch as a whole, and then adds
   exactly the units asked for, each with its own tenant, event, category and seat, and touches no
   other row.
   */
  lemma {:induction false} BatchAddsExactlyItsUnits(t: Table, units: seq<NewUnit>)
    ensures InsertAll(t, units).Some? <==> KeysAdmit(t.rows, units)
    ensures InsertAll(t, units).Some? ==> AddsUnits(t.rows, InsertAll(t, units).value.rows, units)
    decreases |units|
  {
    if units != [] {
      var n := |units| - 1;
      var front, last := units[..n], units[n];
      BatchAddsExactlyItsUnits(t, front);
      if KeysAdmit(t.rows, front) {
        var w := InsertAll(t, front).value;
        OneMoreUnit(t, w, units);
        if CanInsert(w, last.id, last.event, last.seat) {
          hide AddsUnits, KeysAdmit;
          AddOneMore(t.rows, w.rows, units, NewRow(last.tenant, last.event, last.category, last.seat));
        }
      } else {
        FrontAdmitted(t.rows, units);
      }
    }
  }

  lemma FrontAdmitted(rows: map<Id, Row>, units: seq<NewUnit>)
    requires units != []
    ensures KeysAdmit(rows, units) ==> KeysAdmit(rows, units[..|units| - 1])
  {
  }
}
