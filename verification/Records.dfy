/**
 What the rows say, in every run: a unit is the unit that was created, an audit line names its
 unit's tenant and the hold it logs, a payment is over its order's total, and a confirmation in the
 outbox is addressed to its order's buyer and about that order.
 */
module Records {
  import opened Types
  import opened SeatTable
  import opened Ledger
  import opened Purchase
  import opened Invariants
  import opened Guarantees
  import opened Pricing

  // ---- units ----

  /** The unit is still the one it was: tenant, event, category and seat. */
  predicate SameUnit(a: Row, b: Row) {
    a.tenant == b.tenant && a.event == b.event && a.category == b.category && a.seat == b.seat
  }

  predicate Describes(a: Action, id: Id, r: Row) {
    a.CreateUnit? && a.id == id
    && a.tenant == r.tenant && a.event == r.event && a.category == r.category && a.seat == r.seat
  }

  /** No unit disappears or becomes another; a new one is what its creation said. */
  ghost predicate UnitsKept(t: Table, a: Action, u: Table) {
    && (forall id | id in t.rows :: id in u.rows && SameUnit(t.rows[id], u.rows[id]))
    && (forall id | id in u.rows && id !in t.rows :: Describes(a, id, u.rows[id]))
  }

  lemma PutKeepsUnits(t: Table, a: Action, id: Id, r: Row)
    requires if id in t.rows then SameUnit(t.rows[id], r) else Describes(a, id, r)
    ensures UnitsKept(t, a, Put(t, id, r))
  {
  }

  lemma SellAllKeepsUnits(t: Table, a: Action, tenant: Id, items: seq<Item>)
    ensures UnitsKept(t, a, SellAll(t, tenant, items))
  {
  }

  /** What a statement on one unit writes, if its WHERE clause matches and nobody holds the row's lock. */
  function Written(s: State, a: Action): Option<(Id, Row)> {
    match a
    case CreateUnit(id, tenant, event, category, seat) =>
      if CanInsert(s.table, id, event, seat) then Some((id, NewRow(tenant, event, category, seat))) else None
    case HoldUnit(tenant, id, token, user, expires) =>
      if IsAvailable(s.table, tenant, id) && id !in s.locks && token !in s.issued
      then Some((id, HeldRow(s.table.rows[id], token, user, expires))) else None
    case ReleaseUnit(tenant, id, token) =>
      if id !in s.locks && Carries(s.table, tenant, id, token) then Some((id, Cleared(s.table.rows[id], Available))) else None
    case SellUnit(tenant, id, token) =>
      if id !in s.locks && Carries(s.table, tenant, id, token) then Some((id, Cleared(s.table.rows[id], Sold))) else None
    case Withdraw(tenant, id) =>
      if id !in s.locks && Exists(s.table, tenant, id) then Some((id, Cleared(s.table.rows[id], Void))) else None
    case _ => None
  }

  lemma UnitStepIsWrite(s: State, a: Action)
    requires WritesUnits(a)
    ensures Step(s, a).table == if Written(s, a).Some? then Put(s.table, Written(s, a).value.0, Written(s, a).value.1) else s.table
    ensures Step(s, a).issued ==
      if a.HoldUnit? && Written(s, a).Some? then s.issued[a.token := Issue(a.id, a.expires, a.user)] else s.issued
  {
    hide Put, CanInsert, DoCreateStart, DoCreateRead, DoCreateCommit, DoAuthorizeStart, DoAuthorizeRecord,
      DoAuthorizeFinish, DoConfirmStart, DoConfirmLoad, DoConfirmSell, DoConfirmCommit, DoConfirmCapture, DoRefundSend,
      DoRefundNote, DoRefundClose, DoCrash, DoDispatch;
  }

  lemma WrittenIsTheUnit(s: State, a: Action)
    requires Written(s, a).Some?
    ensures
      var (id, r) := Written(s, a).value;
      if id in s.table.rows then SameUnit(s.table.rows[id], r) else Describes(a, id, r)
  {
  }

  lemma OthersWriteNoUnit(s: State, a: Action)
    requires !WritesUnits(a) && !a.ConfirmCommit?
    ensures Step(s, a).table == s.table && Step(s, a).issued == s.issued
  {
    hide DoHold, DoRelease, DoSellUnit, DoVoid, DoCreateStart, DoCreateRead, DoCreateCommit, DoAuthorizeStart,
      DoAuthorizeRecord, DoAuthorizeFinish, DoConfirmStart, DoConfirmLoad, DoConfirmSell, DoConfirmCommit,
      DoConfirmCapture, DoRefundSend, DoRefundNote, DoRefundClose, DoCrash, DoDispatch, Insert;
  }

  lemma CommitSells(s: State, call: nat)
    ensures
      var t := Step(s, ConfirmCommit(call));
      && t.issued == s.issued
      && t.table ==
         if ReadyToCommit(s, call) then
           SellAll(s.table, s.orders[s.calls[call].order].tenant, s.orders[s.calls[call].order].items)
         else s.table
  {
    hide SellAll, RowList, Without;
    assert Step(s, ConfirmCommit(call)) == DoConfirmCommit(s, call);
    hide Step;
  }

  lemma StepKeepsUnits(s: State, a: Action)
    ensures UnitsKept(s.table, a, Step(s, a).table)
  {
    hide Step, Put, SellAll, Written, UnitsKept;
    NoChange(s.table, a);
    if a.ConfirmCommit? {
      CommitSells(s, a.call);
      if ReadyToCommit(s, a.call) {
        SellAllKeepsUnits(s.table, a, s.orders[s.calls[a.call].order].tenant, s.orders[s.calls[a.call].order].items);
      }
    } else if WritesUnits(a) {
      UnitStepIsWrite(s, a);
      if Written(s, a).Some? {
        WrittenIsTheUnit(s, a);
        PutKeepsUnits(s.table, a, Written(s, a).value.0, Written(s, a).value.1);
      }
    } else {
      OthersWriteNoUnit(s, a);
    }
  }

  lemma NoChange(t: Table, a: Action)
    ensures UnitsKept(t, a, t)
  {
  }

  /** The run contains the creation of this very unit. */
  ghost predicate CreatedBy(run: seq<Action>, id: Id, r: Row) {
    exists k :: 0 <= k < |run| && Describes(run[k], id, r)
  }

  lemma {:induction false} ExecKeepsUnits(s: State, run: seq<Action>, id: Id)
    ensures id in s.table.rows ==>
      id in Exec(s, run).table.rows && SameUnit(s.table.rows[id], Exec(s, run).table.rows[id])
    ensures id in Exec(s, run).table.rows && id !in s.table.rows ==> CreatedBy(run, id, Exec(s, run).table.rows[id])
    decreases run
  {
    hide Step;
    if run != [] {
      var t, rest := Step(s, run[0]), run[1..];
      StepKeepsUnits(s, run[0]);
      ExecKeepsUnits(t, rest, id);
      if id in Exec(t, rest).table.rows && id !in s.table.rows {
        if id in t.table.rows {
          assert Describes(run[0], id, Exec(t, rest).table.rows[id]);
        } else {
          var k :| 0 <= k < |rest| && Describes(rest[k], id, Exec(t, rest).table.rows[id]);
          assert run[k + 1] == rest[k];
        }
      }
    }
  }

  /** Every unit of every run carries the tenant, the event, the category and the seat it was created with. */
  lemma UnitsAreAsCreated(run: seq<Action>, later: seq<Action>, id: Id)
    ensures
      var s := Exec(START, run);
      var t := Exec(s, later);
      id in s.table.rows ==>
        && CreatedBy(run, id, s.table.rows[id])
        && id in t.table.rows && SameUnit(s.table.rows[id], t.table.rows[id])
  {
    hide Exec, Step;
    ExecKeepsUnits(START, run, id);
    ExecKeepsUnits(Exec(START, run), later, id);
  }

  // ---- audit lines ----

  /** The line names its unit's tenant, and the token and the user of a hold exactly when it logs one. */
  ghost predicate LineOk(e: Audit, rows: map<Id, Row>, issued: map<Id, Issue>) {
    && e.row in rows && e.tenant == rows[e.row].tenant
    && if e.next == Held then
         && e.holdToken.Some? && e.holdToken.value in issued
         && issued[e.holdToken.value].row == e.row && e.heldBy == Some(issued[e.holdToken.value].user)
       else e.holdToken.None? && e.heldBy.None?
  }

  predicate LogsHold(e: Audit, token: Id) {
    e.next == Held && e.holdToken == Some(token)
  }

  ghost predicate Logged(ledger: seq<Audit>, token: Id) {
    exists k :: 0 <= k < |ledger| && LogsHold(ledger[k], token)
  }

  ghost predicate LinesOk(t: Table, issued: map<Id, Issue>) {
    && (forall k | 0 <= k < |t.ledger| :: LineOk(t.ledger[k], t.rows, issued))
    && (forall token | token in issued :: Logged(t.ledger, token))
    && (forall i, j, token | 0 <= i < j < |t.ledger| && LogsHold(t.ledger[i], token) :: !LogsHold(t.ledger[j], token))
  }

  /** Lines that log no hold are appended. */
  lemma PlainLines(t: Table, u: Table, lines: seq<Audit>, issued: map<Id, Issue>)
    requires LinesOk(t, issued) && u.ledger == t.ledger + lines
    requires forall id | id in t.rows :: id in u.rows && u.rows[id].tenant == t.rows[id].tenant
    requires forall k | 0 <= k < |lines| :: lines[k].next != Held && LineOk(lines[k], u.rows, issued)
    ensures LinesOk(u, issued)
  {
    forall k | 0 <= k < |u.ledger| ensures LineOk(u.ledger[k], u.rows, issued) {
      if k < |t.ledger| { assert LineOk(t.ledger[k], t.rows, issued); }
    }
    forall token | token in issued ensures Logged(u.ledger, token) {
      var k :| 0 <= k < |t.ledger| && LogsHold(t.ledger[k], token);
      assert LogsHold(u.ledger[k], token);
    }
  }

  /** A write other than a hold. */
  lemma PutKeepsLines(t: Table, id: Id, r: Row, issued: map<Id, Issue>)
    requires LinesOk(t, issued)
    requires id in t.rows ==> r.tenant == t.rows[id].tenant
    requires r.status != Held && r.holdToken.None? && r.heldBy.None?
    ensures LinesOk(Put(t, id, r), issued)
  {
    var u := Put(t, id, r);
    hide LinesOk;
    PlainLines(t, u, u.ledger[|t.ledger|..], issued);
  }

  /** A hold is logged with its token and its user. */
  lemma HoldKeepsLines(t: Table, tenant: Id, id: Id, token: Id, user: Id, expires: Time, issued: map<Id, Issue>)
    requires LinesOk(t, issued) && IsAvailable(t, tenant, id) && token !in issued
    ensures LinesOk(Hold(t, tenant, id, token, user, expires), issued[token := Issue(id, expires, user)])
  {
    var u, more := Hold(t, tenant, id, token, user, expires), issued[token := Issue(id, expires, user)];
    var n := |t.ledger|;
    assert u.ledger == t.ledger + [Audit(t.rows[id].tenant, id, Some(Available), Held, Some(token), Some(user))];
    forall k | 0 <= k < |u.ledger| ensures LineOk(u.ledger[k], u.rows, more) {
      if k < n { assert LineOk(t.ledger[k], t.rows, issued); }
    }
    forall other | other in more ensures Logged(u.ledger, other) {
      if other == token {
        assert LogsHold(u.ledger[n], token);
      } else {
        var k :| 0 <= k < n && LogsHold(t.ledger[k], other);
        assert LogsHold(u.ledger[k], other);
      }
    }
    forall i, j, other | 0 <= i < j < |u.ledger| && LogsHold(u.ledger[i], other) ensures !LogsHold(u.ledger[j], other) {
      assert LineOk(t.ledger[i], t.rows, issued);
    }
  }

  lemma SellAllKeepsLines(t: Table, tenant: Id, items: seq<Item>, issued: map<Id, Issue>)
    requires LinesOk(t, issued) && AllHeld(t, tenant, items)
    ensures LinesOk(SellAll(t, tenant, items), issued)
  {
    var u := SellAll(t, tenant, items);
    hide LinesOk;
    PlainLines(t, u, u.ledger[|t.ledger|..], issued);
  }

  lemma WrittenIsPlain(s: State, a: Action)
    requires Written(s, a).Some? && !a.HoldUnit?
    ensures
      var (id, r) := Written(s, a).value;
      && (id in s.table.rows ==> r.tenant == s.table.rows[id].tenant)
      && r.status != Held && r.holdToken.None? && r.heldBy.None?
  {
  }

  lemma HeldIsHold(s: State, a: Action)
    requires a.HoldUnit? && Written(s, a).Some?
    ensures IsAvailable(s.table, a.tenant, a.id) && a.token !in s.issued
    ensures Put(s.table, Written(s, a).value.0, Written(s, a).value.1) == Hold(s.table, a.tenant, a.id, a.token, a.user, a.expires)
  {
    hide Put;
  }

  lemma StepKeepsLines(s: State, a: Action)
    requires LocksOk(s.locks, s.calls, s.orders, s.table) && LinesOk(s.table, s.issued)
    ensures LinesOk(Step(s, a).table, Step(s, a).issued)
  {
    hide Step, Put, Hold, SellAll, Written, LinesOk, LocksOk, AllHeld;
    if a.ConfirmCommit? {
      CommitSells(s, a.call);
      if ReadyToCommit(s, a.call) {
        CommitIsAtomic(s, a.call);
        var o := s.orders[s.calls[a.call].order];
        SellAllKeepsLines(s.table, o.tenant, o.items, s.issued);
      }
    } else if WritesUnits(a) {
      UnitStepIsWrite(s, a);
      if Written(s, a).Some? {
        if a.HoldUnit? {
          HeldIsHold(s, a);
          HoldKeepsLines(s.table, a.tenant, a.id, a.token, a.user, a.expires, s.issued);
        } else {
          WrittenIsPlain(s, a);
          PutKeepsLines(s.table, Written(s, a).value.0, Written(s, a).value.1, s.issued);
        }
      }
    } else {
      OthersWriteNoUnit(s, a);
    }
  }

  // ---- payments and confirmations ----

  /** A payment is over its order's total, under its order's tenant and key. */
  ghost predicate PaymentsOk(orders: map<Id, Order>, payments: map<Id, Payment>) {
    forall p | p in payments ::
      && payments[p].order in orders
      && payments[p].amount == orders[payments[p].order].total
      && payments[p].tenant == orders[payments[p].order].tenant
      && payments[p].key == orders[payments[p].order].key
  }

  /** A confirmation goes to its order's buyer and says how many items the order has and what it costs. */
  predicate NoteOk(n: Note, orders: map<Id, Order>) {
    && n.order in orders
    && n.tenant == orders[n.order].tenant && n.user == orders[n.order].user
    && n.itemCount == |orders[n.order].items| && n.total == orders[n.order].total
  }

  ghost predicate NotesOk(orders: map<Id, Order>, outbox: seq<Note>) {
    forall k | 0 <= k < |outbox| :: NoteOk(outbox[k], orders)
  }

  lemma GrowthKeepsNotes(s: State, t: State, outbox: seq<Note>)
    requires Grows(s, t) && NotesOk(s.orders, outbox)
    ensures NotesOk(t.orders, outbox)
  {
    forall k | 0 <= k < |outbox| ensures NoteOk(outbox[k], t.orders) {
      assert NoteOk(outbox[k], s.orders);
    }
  }

  /** The commit adds the confirmation of its order, a dispatch only restates one, and nothing else writes the outbox. */
  ghost predicate OutboxWritten(s: State, a: Action, t: State) {
    || t.outbox == s.outbox
    || (&& a.ConfirmCommit? && ReadyToCommit(s, a.call)
        && var o := s.orders[s.calls[a.call].order];
           t.outbox == s.outbox + [Note(o.tenant, o.user, s.calls[a.call].order, |o.items|, o.total, NotePending)])
    || (a.Dispatch? && a.note < |s.outbox| && t.outbox == s.outbox[a.note := s.outbox[a.note].(status := a.status)])
  }

  lemma OutboxIsWritten(s: State, a: Action)
    ensures OutboxWritten(s, a, Step(s, a))
  {
    hide Hold, Release, VoidUnit, ConfirmSale, Insert, SellAll, Carries, KeyTaken, PaymentKeyTaken, PaymentMatches,
      LapsedAt, Extended, RowList, Admissible, Without;
  }

  lemma StepKeepsNotes(s: State, a: Action)
    requires NotesOk(s.orders, s.outbox)
    ensures NotesOk(Step(s, a).orders, Step(s, a).outbox)
  {
    hide Step;
    var t := Step(s, a);
    OutboxIsWritten(s, a);
    StepGrows(s, a);
    GrowthKeepsNotes(s, t, s.outbox);
    hide Grows;
    if t.outbox != s.outbox && a.ConfirmCommit? {
      var id := s.calls[a.call].order;
      var note := t.outbox[|s.outbox|];
      assert NotesOk(s.orders, [note]);
      GrowthKeepsNotes(s, t, [note]);
      assert NoteOk([note][0], t.orders);
    }
  }

  /** A payment that was not there before was recorded for its order. */
  lemma NewPaymentIsRecorded(s: State, a: Action, p: Id)
    requires p in Step(s, a).payments && p !in s.payments
    ensures
      && a.AuthorizeRecord? && a.call in s.calls && s.calls[a.call].Authorizing? && s.calls[a.call].order in s.orders
      && Step(s, a).orders == s.orders
      && var id := s.calls[a.call].order;
         Step(s, a).payments[p] == Payment(s.orders[id].tenant, id, s.orders[id].key, PaymentPending, s.orders[id].total)
  {
    hide Hold, Release, VoidUnit, ConfirmSale, Insert, SellAll, Carries, KeyTaken, PaymentKeyTaken, PaymentMatches,
      LapsedAt, Extended, RowList, Admissible, Without;
  }

  lemma StepKeepsPayments(s: State, a: Action)
    requires PaymentsOk(s.orders, s.payments)
    ensures PaymentsOk(Step(s, a).orders, Step(s, a).payments)
  {
    hide Step;
    var t := Step(s, a);
    StepGrows(s, a);
    forall p | p in t.payments
      ensures t.payments[p].order in t.orders
      ensures t.payments[p].amount == t.orders[t.payments[p].order].total
      ensures t.payments[p].tenant == t.orders[t.payments[p].order].tenant
      ensures t.payments[p].key == t.orders[t.payments[p].order].key
    {
      if p !in s.payments { NewPaymentIsRecorded(s, a, p); }
    }
  }

  // ---- every run ----

  lemma {:induction false} ExecKeepsRecords(s: State, run: seq<Action>)
    requires Inv(s) && LinesOk(s.table, s.issued) && NotesOk(s.orders, s.outbox) && PaymentsOk(s.orders, s.payments)
    ensures
      var t := Exec(s, run);
      LinesOk(t.table, t.issued) && NotesOk(t.orders, t.outbox) && PaymentsOk(t.orders, t.payments)
    decreases run
  {
    hide Step, LinesOk, NotesOk, PaymentsOk, RowsOk, LedgerAgrees, OrdersOk, SalesOk, OutboxOk, KeysOk, FailedOk, CallsOk, LocksOk;
    if run != [] {
      StepKeeps(s, run[0]);
      StepKeepsLines(s, run[0]);
      StepKeepsNotes(s, run[0]);
      StepKeepsPayments(s, run[0]);
      ExecKeepsRecords(Step(s, run[0]), run[1..]);
    }
  }

  lemma RunKeepsRecords(run: seq<Action>)
    ensures
      var s := Exec(START, run);
      LinesOk(s.table, s.issued) && NotesOk(s.orders, s.outbox) && PaymentsOk(s.orders, s.payments)
  {
    hide Step, Exec;
    StartOk();
    ExecKeepsRecords(START, run);
  }

  /** Every confirmation in the outbox is addressed to the buyer of its order and states that order's items and total. */
  lemma ConfirmationsAreAddressed(run: seq<Action>, k: nat)
    requires k < |Exec(START, run).outbox|
    ensures
      var s := Exec(START, run);
      var n := s.outbox[k];
      && n.order in s.orders
      && n.tenant == s.orders[n.order].tenant && n.user == s.orders[n.order].user
      && n.itemCount == |s.orders[n.order].items| && n.total == s.orders[n.order].total
  {
    hide Exec;
    RunKeepsRecords(run);
    assert NoteOk(Exec(START, run).outbox[k], Exec(START, run).orders);
  }

  /** Every payment is over the total of its order, under its order's tenant and idempotency key. */
  lemma PaymentsAreOverTheTotal(run: seq<Action>, p: Id)
    requires p in Exec(START, run).payments
    ensures
      var s := Exec(START, run);
      var order := s.payments[p].order;
      && order in s.orders && s.payments[p].amount == s.orders[order].total
      && s.payments[p].tenant == s.orders[order].tenant && s.payments[p].key == s.orders[order].key
  {
    hide Exec;
    RunKeepsRecords(run);
  }

  /**
   Every audit line names the tenant of its unit; a line about a hold carries the token and the user
   of that hold, any other line neither; and every hold ever granted has exactly one line.
   */
  lemma HoldsAreLogged(run: seq<Action>, k: nat, token: Id)
    ensures
      var s := Exec(START, run);
      && (k < |s.table.ledger| ==>
            var e := s.table.ledger[k];
            && e.row in s.table.rows && e.tenant == s.table.rows[e.row].tenant
            && (e.next != Held ==> e.holdToken.None? && e.heldBy.None?)
            && (e.next == Held ==>
                  && e.holdToken.Some? && e.holdToken.value in s.issued
                  && s.issued[e.holdToken.value].row == e.row && e.heldBy == Some(s.issued[e.holdToken.value].user)))
      && (token in s.issued ==>
            exists i :: 0 <= i < |s.table.ledger| && LogsHold(s.table.ledger[i], token)
              && forall j | 0 <= j < |s.table.ledger| && LogsHold(s.table.ledger[j], token) :: j == i)
  {
    hide Exec;
    RunKeepsRecords(run);
    var s := Exec(START, run);
    if k < |s.table.ledger| { assert LineOk(s.table.ledger[k], s.table.rows, s.issued); }
    if token in s.issued {
      assert Logged(s.table.ledger, token);
      var i :| 0 <= i < |s.table.ledger| && LogsHold(s.table.ledger[i], token);
      forall j | 0 <= j < |s.table.ledger| && LogsHold(s.table.ledger[j], token) ensures j == i {}
    }
  }

  /** A unit that is held is held by the user, under the token and until the time its hold was granted for. */
  lemma HoldersAreKnown(run: seq<Action>, id: Id)
    requires id in Exec(START, run).table.rows && Exec(START, run).table.rows[id].status == Held
    ensures
      var s := Exec(START, run);
      var r := s.table.rows[id];
      && r.holdToken.Some? && r.holdToken.value in s.issued
      && s.issued[r.holdToken.value].row == id
      && r.heldBy == Some(s.issued[r.holdToken.value].user)
      && r.holdExpiresAt == Some(s.issued[r.holdToken.value].expires)
  {
    hide Exec, LedgerAgrees, OrdersOk, SalesOk, OutboxOk, KeysOk, FailedOk, CallsOk, LocksOk, WellFormed;
    RunOk(run);
    var s := Exec(START, run);
    assert HoldIssued(s.issued, id, s.table.rows[id]);
  }

  // ---- who asked ----

  lemma Snoc(run: seq<Action>)
    requires run != []
    ensures Exec(START, run) == Step(Exec(START, run[..|run| - 1]), run[|run| - 1])
  {
    hide Step, Exec;
    var n := |run| - 1;
    assert run == run[..n] + [run[n]];
    ExecConcat(START, run[..n], [run[n]]);
    ExecOne(Exec(START, run[..n]), run[n]);
  }

  predicate Grants(a: Action, token: Id, i: Issue) {
    a.HoldUnit? && a.token == token && a.id == i.row && a.user == i.user && a.expires == i.expires
  }

  lemma NewTokenIsGranted(s: State, a: Action, token: Id)
    requires token in Step(s, a).issued
    ensures if token in s.issued then Step(s, a).issued[token] == s.issued[token] else Grants(a, token, Step(s, a).issued[token])
  {
    hide Step;
    if token in s.issued { StepKeepsIssued(s, a, token); }
    if a.ConfirmCommit? {
      CommitSells(s, a.call);
    } else if WritesUnits(a) {
      UnitStepIsWrite(s, a);
    } else {
      OthersWriteNoUnit(s, a);
    }
  }

  /** The unit, the user and the expiry on record for a token are those of the request that was granted. */
  lemma {:induction false} TokensAreAsGranted(run: seq<Action>, token: Id)
    requires token in Exec(START, run).issued
    ensures exists k :: 0 <= k < |run| && Grants(run[k], token, Exec(START, run).issued[token])
    decreases |run|
  {
    if run != [] {
      hide Exec, Step;
      var n := |run| - 1;
      var s := Exec(START, run[..n]);
      Snoc(run);
      NewTokenIsGranted(s, run[n], token);
      if token in s.issued {
        TokensAreAsGranted(run[..n], token);
        var k :| 0 <= k < n && Grants(run[..n][k], token, s.issued[token]);
        assert run[k] == run[..n][k];
      }
    }
  }

  /** The request a call answers, and how far it has come with it. */
  ghost predicate Answers(a: Action, tenant: Id, user: Id, key: string, wants: seq<Want>, lines: seq<Item>) {
    && a == CreateStart(tenant, user, key, wants) && |lines| <= |wants|
    && forall i | 0 <= i < |lines| :: lines[i].row == wants[i].row && lines[i].token == wants[i].token
  }

  ghost predicate CallAnswers(run: seq<Action>, c: Call) {
    c.Creating? ==> exists k :: 0 <= k < |run| && Answers(run[k], c.tenant, c.user, c.key, c.wants, c.lines)
  }

  /** The order is what some request asked for: its tenant, buyer and key, and one item per wanted hold, in order. */
  ghost predicate OrderAnswers(run: seq<Action>, o: Order) {
    exists k :: 0 <= k < |run| && run[k].CreateStart? && |o.items| == |run[k].wants|
      && Answers(run[k], o.tenant, o.user, o.key, run[k].wants, o.items)
  }

  lemma LongerRun(run: seq<Action>, c: Call)
    requires run != [] && CallAnswers(run[..|run| - 1], c)
    ensures CallAnswers(run, c)
  {
    if c.Creating? {
      var front := run[..|run| - 1];
      var k :| 0 <= k < |front| && Answers(front[k], c.tenant, c.user, c.key, c.wants, c.lines);
      assert run[k] == front[k];
    }
  }

  lemma StartAnswers(s: State, run: seq<Action>, c: nat)
    requires run != [] && run[|run| - 1].CreateStart? && c in Step(s, run[|run| - 1]).calls
    requires c in s.calls ==> CallAnswers(run[..|run| - 1], s.calls[c])
    ensures CallAnswers(run, Step(s, run[|run| - 1]).calls[c])
  {
    hide KeyTaken;
    var a := run[|run| - 1];
    var t := DoCreateStart(s, a.tenant, a.user, a.key, a.wants);
    assert Step(s, a) == t;
    hide Step;
    if c in s.calls && t.calls[c] == s.calls[c] {
      LongerRun(run, s.calls[c]);
    } else {
      assert Answers(run[|run| - 1], a.tenant, a.user, a.key, a.wants, []);
    }
  }

  lemma ReadAnswers(s: State, run: seq<Action>, a: Action)
    requires a.CreateRead? && a.call in s.calls && CallAnswers(run, s.calls[a.call]) && a.call in Step(s, a).calls
    ensures CallAnswers(run, Step(s, a).calls[a.call])
  {
    hide Carries, LapsedAt, AddMoney, Earlier;
    var c, t := s.calls[a.call], DoCreateRead(s, a.call, a.price);
    assert Step(s, a) == t;
    hide Step;
    if c.Creating? {
      var k :| 0 <= k < |run| && Answers(run[k], c.tenant, c.user, c.key, c.wants, c.lines);
      var d := t.calls[a.call];
      assert Answers(run[k], d.tenant, d.user, d.key, d.wants, d.lines);
    }
  }

  lemma ReadKeepsCall(s: State, a: Action)
    requires a.CreateRead? && a.call in Step(s, a).calls
    ensures a.call in s.calls
  {
    hide Carries, LapsedAt, Extended;
    assert Step(s, a) == DoCreateRead(s, a.call, a.price);
  }

  lemma {:induction false} CallsAnswer(run: seq<Action>, c: nat)
    requires c in Exec(START, run).calls
    ensures CallAnswers(run, Exec(START, run).calls[c])
    decreases |run|
  {
    if run != [] {
      hide Exec, Step, CallAnswers;
      var n := |run| - 1;
      var s, a := Exec(START, run[..n]), run[n];
      Snoc(run);
      if c in s.calls { CallsAnswer(run[..n], c); }
      if a.CreateStart? {
        StartAnswers(s, run, c);
      } else if a.CreateRead? && a.call == c {
        ReadKeepsCall(s, a);
        LongerRun(run, s.calls[c]);
        ReadAnswers(s, run, a);
      } else {
        StepKeepsCreating(s, a, c);
        if Step(s, a).calls[c].Creating? {
          LongerRun(run, s.calls[c]);
        } else {
          NotCreating(run, Step(s, a).calls[c]);
        }
      }
    }
  }

  lemma NotCreating(run: seq<Action>, c: Call)
    requires !c.Creating?
    ensures CallAnswers(run, c)
  {
  }

  /** Every order is what one request asked for: its tenant, its buyer, its key, and one item per wanted hold, in order. */
  lemma {:induction false} OrdersAreAsAsked(run: seq<Action>, order: Id)
    requires order in Exec(START, run).orders
    ensures OrderAnswers(run, Exec(START, run).orders[order])
    decreases |run|
  {
    if run != [] {
      hide Exec, Step;
      var n := |run| - 1;
      var s, a := Exec(START, run[..n]), run[n];
      var front := run[..n];
      Snoc(run);
      var o := Step(s, a).orders[order];
      if order in s.orders {
        OrdersAreAsAsked(front, order);
        StepGrows(s, a);
        var k :| 0 <= k < |front| && front[k].CreateStart? && |o.items| == |front[k].wants|
          && Answers(front[k], o.tenant, o.user, o.key, front[k].wants, o.items);
        assert run[k] == front[k];
      } else {
        NewOrderIsCommitted(s, a, order);
        CallsAnswer(front, a.call);
        var c := s.calls[a.call];
        var k :| 0 <= k < |front| && Answers(front[k], c.tenant, c.user, c.key, c.wants, c.lines);
        assert run[k] == front[k];
        assert Answers(run[k], o.tenant, o.user, o.key, run[k].wants, o.items);
      }
    }
  }
}
