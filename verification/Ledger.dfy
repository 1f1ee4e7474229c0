/**
 The audit log as a refinement of the table: replaying it gives back every unit's status, and
 the lines of one unit form a chain in which a sale follows a hold and only a void follows a sale.
 */
module Ledger {
  import opened Types
  import opened SeatTable

  /** The moves the statements can make; `None` stands for "not inserted yet". */
  predicate LegalMove(from: Option<Status>, to: Status) {
    match to
    case Available => from == None || from == Some(Held)
    case Held => from == Some(Available)
    case Sold => from == Some(Held)
    case Void => from.Some? && from.value != Void
  }

  /** The lines about one unit, oldest first. */
  function Entries(ledger: seq<Audit>, id: Id): seq<Audit> {
    if ledger == [] then []
    else
      var last := ledger[|ledger| - 1];
      Entries(ledger[..|ledger| - 1], id) + if last.row == id then [last] else []
  }

  function StatusBefore(entries: seq<Audit>, k: nat): Option<Status>
    requires k <= |entries|
  {
    if k == 0 then None else Some(entries[k - 1].next)
  }

  ghost predicate Chained(entries: seq<Audit>) {
    forall k | 0 <= k < |entries| ::
      && entries[k].previous == StatusBefore(entries, k)
      && LegalMove(StatusBefore(entries, k), entries[k].next)
  }

  ghost predicate UnitAgrees(t: Table, id: Id) {
    var entries := Entries(t.ledger, id);
    && Chained(entries)
    && StatusBefore(entries, |entries|) == if id in t.rows then Some(t.rows[id].status) else None
  }

  /** The log agrees with the table on every identifier, used or not. */
  ghost predicate LedgerAgrees(t: Table) {
    forall id: Id :: UnitAgrees(t, id)
  }

  /** The statuses obtained by reading the log from its first line. */
  function Replay(ledger: seq<Audit>): map<Id, Status> {
    if ledger == [] then map[]
    else
      var last := ledger[|ledger| - 1];
      Replay(ledger[..|ledger| - 1])[last.row := last.next]
  }

  function Statuses(t: Table): map<Id, Status> {
    map id | id in t.rows :: t.rows[id].status
  }

  lemma EntriesOfAppend(ledger: seq<Audit>, e: Audit, id: Id)
    ensures Entries(ledger + [e], id) == Entries(ledger, id) + if e.row == id then [e] else []
  {
    assert (ledger + [e])[..|ledger|] == ledger;
  }

  lemma {:induction false} ChainedAppend(entries: seq<Audit>, e: Audit)
    requires Chained(entries)
    requires e.previous == StatusBefore(entries, |entries|)
    requires LegalMove(e.previous, e.next)
    ensures Chained(entries + [e])
  {
    var longer := entries + [e];
    forall k | 0 <= k < |longer|
      ensures longer[k].previous == StatusBefore(longer, k) && LegalMove(StatusBefore(longer, k), longer[k].next)
    {
      if k < |entries| {
        assert longer[k] == entries[k] && StatusBefore(longer, k) == StatusBefore(entries, k);
      }
    }
  }

  lemma {:induction false} PutKeepsUnit(t: Table, id: Id, r: Row, other: Id)
    requires UnitAgrees(t, id) && UnitAgrees(t, other)
    requires
      var previous := if id in t.rows then Some(t.rows[id].status) else None;
      previous == Some(r.status) || LegalMove(previous, r.status)
    ensures UnitAgrees(Put(t, id, r), other)
  {
    hide Entries, Chained, LegalMove;
    var previous := if id in t.rows then Some(t.rows[id].status) else None;
    if previous != Some(r.status) {
      var e := Audit(r.tenant, id, previous, r.status, r.holdToken, r.heldBy);
      EntriesOfAppend(t.ledger, e, other);
      if other == id {
        ChainedAppend(Entries(t.ledger, id), e);
      } else {
        assert Entries(t.ledger + [e], other) == Entries(t.ledger, other);
      }
    }
  }

  /** Every legal write, logged or not, keeps the log and the table in step. */
  lemma PutKeepsLedger(t: Table, id: Id, r: Row)
    requires LedgerAgrees(t)
    requires
      var previous := if id in t.rows then Some(t.rows[id].status) else None;
      previous == Some(r.status) || LegalMove(previous, r.status)
    ensures LedgerAgrees(Put(t, id, r))
  {
    forall other: Id ensures UnitAgrees(Put(t, id, r), other) {
      assert UnitAgrees(t, id) && UnitAgrees(t, other);
      PutKeepsUnit(t, id, r, other);
    }
  }

  lemma {:induction false} SellAllKeepsLedger(t: Table, tenant: Id, items: seq<Item>)
    requires LedgerAgrees(t)
    requires AllHeld(t, tenant, items)
    ensures LedgerAgrees(SellAll(t, tenant, items))
  {
    if items == [] {
      assert SellAll(t, tenant, items).rows == t.rows;
      assert SellAll(t, tenant, items).ledger == t.ledger;
    } else {
      var front := items[..|items| - 1];
      var last := items[|items| - 1];
      assert forall k | 0 <= k < |front| :: front[k] == items[k];
      SellAllKeepsLedger(t, tenant, front);
      SellOneMore(t, tenant, items);
      var u := SellAll(t, tenant, front);
      PutKeepsLedger(u, last.row, Cleared(u.rows[last.row], Sold));
    }
  }

  /** The last line about a unit decides what replaying reports for it. */
  lemma {:induction false} ReplayReadsLastEntry(ledger: seq<Audit>, id: Id)
    ensures
      var entries := Entries(ledger, id);
      (if id in Replay(ledger) then Some(Replay(ledger)[id]) else None) == StatusBefore(entries, |entries|)
  {
    if ledger != [] {
      ReplayReadsLastEntry(ledger[..|ledger| - 1], id);
    }
  }

  /** The log alone determines the table's statuses. */
  lemma ReplayIsTable(t: Table)
    requires LedgerAgrees(t)
    ensures Replay(t.ledger) == Statuses(t)
  {
    forall id: Id
      ensures id in Replay(t.ledger) <==> id in t.rows
      ensures id in t.rows ==> Replay(t.ledger)[id] == t.rows[id].status
    {
      assert UnitAgrees(t, id);
      ReplayReadsLastEntry(t.ledger, id);
    }
  }

  /** In a chain, a sale follows a hold, everything after it is a void, and a void ends the chain. */
  lemma {:induction false} SaleIsFinal(entries: seq<Audit>, i: nat, j: nat)
    requires Chained(entries)
    requires i < j < |entries|
    requires entries[i].next == Sold
    ensures entries[i].previous == Some(Held)
    ensures entries[j].next == Void && j == i + 1 == |entries| - 1
  {
    assert entries[i + 1].next == Void;
    assert forall k | 0 <= k < |entries| :: StatusBefore(entries, k) != Some(Void);
    assert StatusBefore(entries, i + 2) == Some(Void);
  }

  /** At most one line of a unit's chain says it was sold. */
  lemma SoldAtMostOnce(entries: seq<Audit>, i: nat, j: nat)
    requires Chained(entries)
    requires i < |entries| && j < |entries|
    requires entries[i].next == Sold && entries[j].next == Sold
    ensures i == j
  {
    if i < j { SaleIsFinal(entries, i, j); }
    if j < i { SaleIsFinal(entries, j, i); }
  }
}
