/** The protocol's promises, for every run of any number of interleaved calls. */
module Guarantees {
  import opened Types
  import opened SeatTable
  import opened Ledger
  import opened Purchase
  import opened Invariants

  // ---- no oversell ----

  /**
   No unit is sold twice: no unit occurs twice in the log of committed sales, neither in two
   transactions nor inside one, and no physical seat of an event is behind two sold units.
   */
  lemma NoOversell(run: seq<Action>, i: nat, p: nat, j: nat, q: nat)
    requires
      var sales := Exec(START, run).sales;
      i < |sales| && j < |sales| && p < |sales[i].rows| && q < |sales[j].rows| && (i, p) != (j, q)
    ensures
      var s := Exec(START, run);
      var a := s.sales[i].rows[p];
      var b := s.sales[j].rows[q];
      && a != b
      && a in s.table.rows && b in s.table.rows
      && !(s.table.rows[a].seat.Some?
           && s.table.rows[a].event == s.table.rows[b].event
           && s.table.rows[a].seat == s.table.rows[b].seat)
  {
    hide Step, Exec;
    RunOk(run);
    var s := Exec(START, run);
    assert SaleOk(s.sales[i], s.orders, s.table) && SaleOk(s.sales[j], s.orders, s.table);
    assert Gone(s.table, s.sales[i].rows[p]) && Gone(s.table, s.sales[j].rows[q]);
    if i < j {
      assert s.sales[i].rows[p] in s.sales[i].rows;
    } else if j < i {
      assert s.sales[j].rows[q] in s.sales[j].rows;
    }
  }

  /** The log is complete: a unit the table calls sold is in a logged sale. */
  ghost predicate SoldLogged(t: Table, sales: seq<Sale>) {
    forall id | id in t.rows && t.rows[id].status == Sold :: exists k :: 0 <= k < |sales| && id in sales[k].rows
  }

  lemma MoreSalesKeepLogged(t: Table, u: Table, sales: seq<Sale>, sale: Sale)
    requires SoldLogged(t, sales)
    requires forall id | id in u.rows && u.rows[id].status == Sold ::
      (id in t.rows && t.rows[id].status == Sold) || id in sale.rows
    ensures SoldLogged(u, sales + [sale])
  {
    var more := sales + [sale];
    assert more[|sales|] == sale;
    forall id | id in u.rows && u.rows[id].status == Sold ensures exists k :: 0 <= k < |more| && id in more[k].rows {
      if id !in sale.rows {
        var k :| 0 <= k < |sales| && id in sales[k].rows;
        assert id in more[k].rows;
      }
    }
  }

  lemma RowListIsRowsOf(items: seq<Item>)
    ensures forall id :: id in RowsOf(items) <==> id in RowList(items)
  {
    forall id | id in RowsOf(items) ensures id in RowList(items) {
      var k :| 0 <= k < |items| && items[k].row == id;
      assert RowList(items)[k] == id;
    }
  }

  lemma CommitKeepsLogged(s: State, call: nat)
    requires SoldLogged(s.table, s.sales)
    ensures SoldLogged(Step(s, ConfirmCommit(call)).table, Step(s, ConfirmCommit(call)).sales)
  {
    hide SoldLogged;
    if ReadyToCommit(s, call) {
      var o := s.orders[s.calls[call].order];
      RowListIsRowsOf(o.items);
      MoreSalesKeepLogged(s.table, SellAll(s.table, o.tenant, o.items), s.sales,
                          Sale(Some(s.calls[call].order), RowList(o.items)));
    }
  }

  lemma SellUnitKeepsLogged(s: State, tenant: Id, id: Id, token: Id)
    requires SoldLogged(s.table, s.sales)
    ensures SoldLogged(DoSellUnit(s, tenant, id, token).table, DoSellUnit(s, tenant, id, token).sales)
  {
    hide SoldLogged;
    MoreSalesKeepLogged(s.table, ConfirmSale(s.table, tenant, id, token), s.sales, Sale(None, [id]));
  }

  /** Nothing else sells. */
  ghost predicate SellsNothing(s: State, t: State) {
    && t.sales == s.sales
    && forall id | id in t.table.rows && t.table.rows[id].status == Sold ::
         id in s.table.rows && s.table.rows[id].status == Sold
  }

  lemma SellsNothingKeepsLogged(s: State, t: State)
    requires SoldLogged(s.table, s.sales) && SellsNothing(s, t)
    ensures SoldLogged(t.table, t.sales)
  {
  }

  lemma OthersSellNothing(s: State, a: Action)
    requires !a.ConfirmCommit? && !a.SellUnit?
    ensures SellsNothing(s, Step(s, a))
  {
    hide DoCreateStart, DoCreateRead, DoCreateCommit, DoAuthorizeStart, DoAuthorizeRecord, DoAuthorizeFinish,
      DoConfirmStart, DoConfirmLoad, DoConfirmSell, DoConfirmCapture, DoRefundSend, DoRefundNote, DoRefundClose,
      DoCrash, DoDispatch, CanInsert, DoConfirmCommit, DoSellUnit;
  }

  lemma StepKeepsLogged(s: State, a: Action)
    requires SoldLogged(s.table, s.sales)
    ensures SoldLogged(Step(s, a).table, Step(s, a).sales)
  {
    hide SoldLogged, SellsNothing;
    if a.ConfirmCommit? {
      hide Step;
      CommitKeepsLogged(s, a.call);
    } else if a.SellUnit? {
      hide DoSellUnit;
      SellUnitKeepsLogged(s, a.tenant, a.id, a.token);
    } else {
      hide Step;
      OthersSellNothing(s, a);
      SellsNothingKeepsLogged(s, Step(s, a));
    }
  }

  /** In every run, the units the table calls sold are exactly units of logged sales, and those never come back. */
  lemma SoldMeansLogged(run: seq<Action>, id: Id)
    ensures
      var s := Exec(START, run);
      && (id in s.table.rows && s.table.rows[id].status == Sold ==> exists k :: 0 <= k < |s.sales| && id in s.sales[k].rows)
      && ((exists k :: 0 <= k < |s.sales| && id in s.sales[k].rows) ==> Gone(s.table, id))
  {
    hide Step, Exec;
    RunOk(run);
    ExecKeepsLogged(START, run);
    var s := Exec(START, run);
    if k :| 0 <= k < |s.sales| && id in s.sales[k].rows {
      assert SaleOk(s.sales[k], s.orders, s.table);
    }
  }

  lemma {:induction false} ExecKeepsLogged(s: State, run: seq<Action>)
    requires SoldLogged(s.table, s.sales)
    ensures SoldLogged(Exec(s, run).table, Exec(s, run).sales)
    decreases run
  {
    hide Step, SoldLogged;
    if run != [] {
      StepKeepsLogged(s, run[0]);
      ExecKeepsLogged(Step(s, run[0]), run[1..]);
    }
  }

  // ---- the confirm transaction under row locks is the atomic transaction ----

  /**
   Whatever other calls do between the statements of one confirm transaction: it commits only
   when its items are distinct units all held under their stored tokens at that very moment,
   and the commit is the atomic sale; it aborts only when that is not so, and an abort or a
   crash leaves every table of the database as it was.
   */
  lemma TransactionIsAtomic(run: seq<Action>, call: nat)
    ensures
      var s := Exec(START, run);
      ReadyToCommit(s, call) ==>
        var o := s.orders[s.calls[call].order];
        var t := Step(s, ConfirmCommit(call));
        && AllHeld(s.table, o.tenant, o.items)
        && SellInTurn(s.table, o.tenant, o.items) == Some(t.table)
        && t.orders == s.orders[s.calls[call].order := o.(status := Paid)]
        && t.payments == s.payments
    ensures
      var s := Exec(START, run);
      var t := Step(s, ConfirmSell(call));
      SellsNext(s, call) && AtStage(t, call, Aborted) ==>
        var o := s.orders[s.calls[call].order];
        && !AllHeld(s.table, o.tenant, o.items)
        && SellInTurn(s.table, o.tenant, o.items) == None
        && SameDatabase(s, t)
    ensures
      var s := Exec(START, run);
      SameDatabase(s, Step(s, Crash(call)))
  {
    hide Exec, RowsOk, LedgerAgrees, OrdersOk, SalesOk, OutboxOk, KeysOk, FailedOk, CallsOk, LocksOk, SellAll,
      AllHeld, SellInTurn;
    RunOk(run);
    var s := Exec(START, run);
    if ReadyToCommit(s, call) {
      CommitIsTheSale(s, call);
    }
    if SellsNext(s, call) && AtStage(Step(s, ConfirmSell(call)), call, Aborted) {
      AbortMeansNoSale(s, call);
    }
  }

  lemma CommitIsTheSale(s: State, call: nat)
    requires LocksOk(s.locks, s.calls, s.orders, s.table) && ReadyToCommit(s, call)
    ensures
      var o := s.orders[s.calls[call].order];
      && AllHeld(s.table, o.tenant, o.items)
      && SellInTurn(s.table, o.tenant, o.items) == Some(Step(s, ConfirmCommit(call)).table)
  {
    hide LocksOk, SellAll, SellInTurn;
    CommitIsAtomic(s, call);
    InTurnIsAtomic(s.table, s.orders[s.calls[call].order].tenant, s.orders[s.calls[call].order].items);
  }

  lemma AbortMeansNoSale(s: State, call: nat)
    requires LocksOk(s.locks, s.calls, s.orders, s.table)
    requires SellsNext(s, call) && AtStage(Step(s, ConfirmSell(call)), call, Aborted)
    ensures
      var o := s.orders[s.calls[call].order];
      && !AllHeld(s.table, o.tenant, o.items)
      && SellInTurn(s.table, o.tenant, o.items) == None
      && SameDatabase(s, Step(s, ConfirmSell(call)))
  {
    hide LocksOk, SellAll, SellInTurn;
    AbortIsJustified(s, call);
    InTurnIsAtomic(s.table, s.orders[s.calls[call].order].tenant, s.orders[s.calls[call].order].items);
  }

  ghost predicate SameDatabase(s: State, t: State) {
    t.table == s.table && t.orders == s.orders && t.payments == s.payments && t.outbox == s.outbox
  }

  // ---- refunded stays unfulfilled ----

  lemma StepKeepsUnfulfilled(s: State, a: Action, order: Id)
    requires Inv(s) && order in s.failed
    ensures order in Step(s, a).failed
    ensures SalesOf(Step(s, a).sales, order) == SalesOf(s.sales, order)
  {
    hide DoCreateStart, DoCreateRead, DoCreateCommit, DoAuthorizeStart, DoAuthorizeRecord, DoAuthorizeFinish,
      DoConfirmStart, DoConfirmLoad, DoConfirmSell, DoConfirmCapture, DoRefundSend, DoRefundNote, DoRefundClose,
      DoCrash, DoDispatch, CanInsert, RowsOk, LedgerAgrees, OrdersOk, SalesOk, OutboxOk, KeysOk, CallsOk, LocksOk, SellAll;
    if a.SellUnit? {
      SalesOfAppend(s.sales, Sale(None, [a.id]), order);
    }
    if a.ConfirmCommit? && ReadyToCommit(s, a.call) {
      CommitIsAtomic(s, a.call);
      var id := s.calls[a.call].order;
      assert id != order;
      SalesOfAppend(s.sales, Sale(Some(id), RowList(s.orders[id].items)), order);
    }
  }

  lemma {:induction false} ExecKeepsUnfulfilled(s: State, run: seq<Action>, order: Id)
    requires Inv(s) && order in s.failed
    ensures SalesOf(Exec(s, run).sales, order) == SalesOf(s.sales, order)
    decreases run
  {
    hide Inv, Step;
    if run != [] {
      StepKeeps(s, run[0]);
      StepKeepsUnfulfilled(s, run[0], order);
      ExecKeepsUnfulfilled(Step(s, run[0]), run[1..], order);
    }
  }

  /**
   Once a confirm transaction has aborted on an invalid hold, no later confirmation of that
   order ever commits, whatever happens next: nothing in the code looks at the order's status
   `expired`; it is the fresh tokens that keep the transaction from going through.
   */
  lemma RefundedStaysUnfulfilled(run: seq<Action>, call: nat, later: seq<Action>)
    requires
      var s := Exec(START, run);
      SellsNext(s, call) && AtStage(Step(s, ConfirmSell(call)), call, Aborted)
    ensures
      var s := Exec(START, run);
      var order := s.calls[call].order;
      SalesOf(Exec(START, run + [ConfirmSell(call)] + later).sales, order) == SalesOf(s.sales, order)
  {
    hide Exec, Inv;
    var s := Exec(START, run);
    var order := s.calls[call].order;
    var t := Step(s, ConfirmSell(call));
    RunOk(run);
    StepKeeps(s, ConfirmSell(call));
    assert order in t.failed;
    ExecConcat(START, run, [ConfirmSell(call)]);
    ExecConcat(START, run + [ConfirmSell(call)], later);
    ExecOne(s, ConfirmSell(call));
    ExecKeepsUnfulfilled(t, later, order);
  }

  lemma ExecOne(s: State, a: Action)
    ensures Exec(s, [a]) == Step(s, a)
  {
    hide Step;
    assert [a][1..] == [];
  }

  // ---- exactly-once enqueue ----

  /** A sale of an order is at a definite place of the log. */
  lemma {:induction false} SaleAt(sales: seq<Sale>, order: Id) returns (k: nat)
    requires SalesOf(sales, order) > 0
    ensures k < |sales| && sales[k].order == Some(order)
    ensures SalesOf(sales[..k], order) == SalesOf(sales, order) - 1
    decreases sales
  {
    var last := |sales| - 1;
    if sales[last].order == Some(order) {
      k := last;
    } else {
      k := SaleAt(sales[..last], order);
      assert sales[..last][..k] == sales[..k];
    }
  }

  /** Two sales of one order would share a unit. */
  lemma SaleOfOrderIsUnique(sales: seq<Sale>, orders: map<Id, Order>, t: Table, order: Id, i: nat, j: nat)
    requires SalesOk(sales, orders, t)
    requires order in orders ==> orders[order].items != []
    requires i < |sales| && j < |sales| && sales[i].order == sales[j].order == Some(order)
    ensures i == j
  {
    assert SaleOk(sales[i], orders, t) && SaleOk(sales[j], orders, t);
    var unit := RowList(orders[order].items)[0];
    assert unit in sales[i].rows && unit in sales[j].rows;
  }

  lemma AtMostOneSale(sales: seq<Sale>, orders: map<Id, Order>, t: Table, order: Id)
    requires SalesOk(sales, orders, t)
    requires order in orders ==> orders[order].items != []
    ensures SalesOf(sales, order) <= 1
  {
    hide SalesOf;
    if SalesOf(sales, order) > 1 {
      var j := SaleAt(sales, order);
      var i := SaleAt(sales[..j], order);
      assert sales[i] == sales[..j][i];
      SaleOfOrderIsUnique(sales, orders, t, order, i, j);
    }
  }

  /** Confirmations in the outbox and committed sales agree for every order, and there is at most one. */
  lemma ExactlyOnceEnqueue(run: seq<Action>, order: Id)
    ensures
      var s := Exec(START, run);
      NotesOf(s.outbox, order) == SalesOf(s.sales, order) <= 1
  {
    hide Exec, RowsOk, LedgerAgrees, SalesOk, KeysOk, FailedOk, CallsOk, LocksOk, SalesOf, NotesOf;
    RunOk(run);
    var s := Exec(START, run);
    AtMostOneSale(s.sales, s.orders, s.table, order);
  }

  // ---- the audit log ----

  /** Over every run, rollbacks included: replaying the log gives the table, and each unit's lines form a legal chain. */
  lemma LedgerRefinesTable(run: seq<Action>, id: Id)
    ensures
      var t := Exec(START, run).table;
      var lines := Entries(t.ledger, id);
      && Replay(t.ledger) == Statuses(t)
      && Chained(lines)
      && (id in t.rows <==> lines != [])
      && (id in t.rows ==> lines[|lines| - 1].next == t.rows[id].status)
    ensures
      var lines := Entries(Exec(START, run).table.ledger, id);
      forall i, j | 0 <= i < |lines| && 0 <= j < |lines| && lines[i].next == Sold ::
        && lines[i].previous == Some(Held)
        && (lines[j].next == Sold ==> i == j)
        && (i < j ==> lines[j].next == Void)
    ensures LegalLines(Entries(Exec(START, run).table.ledger, id))
  {
    hide Exec, LedgerAgrees, Entries, Replay, Chained, Statuses, LegalLines;
    LedgerOk(run);
    ReplayIsTable(Exec(START, run).table);
    LinesAreLegal(Exec(START, run).table, id);
  }

  lemma LedgerOk(run: seq<Action>)
    ensures LedgerAgrees(Exec(START, run).table)
  {
    hide Exec, RowsOk, LedgerAgrees, OrdersOk, SalesOk, OutboxOk, KeysOk, FailedOk, CallsOk, LocksOk;
    RunOk(run);
  }

  /**
   The life of a unit, move by move: created available; from available to held; from held back to
   available or to sold; from anywhere but void to void; and each line names the status before it.
   */
  ghost predicate LegalLines(lines: seq<Audit>) {
    forall i | 0 <= i < |lines| :: LegalLine(lines, i)
  }

  predicate LegalLine(lines: seq<Audit>, i: nat)
    requires i < |lines|
  {
    if i == 0 then lines[i].previous == None && lines[i].next == Available
    else
      && lines[i].previous == Some(lines[i - 1].next)
      && match lines[i].next
         case Available => lines[i - 1].next == Held
         case Held => lines[i - 1].next == Available
         case Sold => lines[i - 1].next == Held
         case Void => lines[i - 1].next != Void
  }

  lemma LineIsLegal(lines: seq<Audit>, i: nat)
    requires Chained(lines) && i < |lines|
    ensures LegalLine(lines, i)
  {
    assert lines[i].previous == StatusBefore(lines, i) && LegalMove(StatusBefore(lines, i), lines[i].next);
    hide Chained;
  }

  lemma ChainedIsLegal(lines: seq<Audit>)
    requires Chained(lines)
    ensures LegalLines(lines)
  {
    hide Chained, LegalLine;
    forall i | 0 <= i < |lines| ensures LegalLine(lines, i) {
      LineIsLegal(lines, i);
    }
  }

  lemma LinesAreLegal(t: Table, id: Id)
    requires LedgerAgrees(t)
    ensures
      var lines := Entries(t.ledger, id);
      && Chained(lines)
      && (id in t.rows <==> lines != [])
      && (id in t.rows ==> lines[|lines| - 1].next == t.rows[id].status)
    ensures
      var lines := Entries(t.ledger, id);
      forall i, j | 0 <= i < |lines| && 0 <= j < |lines| && lines[i].next == Sold ::
        && lines[i].previous == Some(Held)
        && (lines[j].next == Sold ==> i == j)
        && (i < j ==> lines[j].next == Void)
    ensures LegalLines(Entries(t.ledger, id))
  {
    hide Entries, LegalLines;
    assert UnitAgrees(t, id);
    ChainedIsLegal(Entries(t.ledger, id));
    var lines := Entries(t.ledger, id);
    forall i, j | 0 <= i < |lines| && 0 <= j < |lines| && lines[i].next == Sold
      ensures lines[i].previous == Some(Held)
      ensures lines[j].next == Sold ==> i == j
      ensures i < j ==> lines[j].next == Void
    {
      if i < j { SaleIsFinal(lines, i, j); }
      if lines[j].next == Sold { SoldAtMostOnce(lines, i, j); }
    }
  }

  // ---- idempotency keys ----

  /**
   Under any interleaving an idempotency key names at most one order of a tenant, an order has
   at most one payment, and the payment found through an order's key belongs to that order.
   */
  lemma KeysAreFunctional(run: seq<Action>)
    ensures
      var s := Exec(START, run);
      && (forall a, b | a in s.orders && b in s.orders
            && s.orders[a].tenant == s.orders[b].tenant && s.orders[a].key == s.orders[b].key :: a == b)
      && (forall p, q | p in s.payments && q in s.payments && s.payments[p].order == s.payments[q].order :: p == q)
      && (forall o, p | o in s.orders && p in s.payments
            && s.payments[p].tenant == s.orders[o].tenant && s.payments[p].key == s.orders[o].key ::
            s.payments[p].order == o)
  {
    hide Exec, RowsOk, LedgerAgrees, OrdersOk, SalesOk, OutboxOk, FailedOk, CallsOk, LocksOk;
    RunOk(run);
  }

  // ---- orders and payments only ever change their status ----

  ghost predicate Grows(s: State, t: State) {
    && (forall o | o in s.orders :: o in t.orders && t.orders[o].(status := s.orders[o].status) == s.orders[o])
    && (forall p | p in s.payments ::
          p in t.payments && t.payments[p].(status := s.payments[p].status) == s.payments[p])
  }

  lemma CreateCommitGrows(s: State, call: nat, id: Id)
    ensures Grows(s, DoCreateCommit(s, call, id))
  {
  }

  lemma AuthorizeRecordGrows(s: State, call: nat, payment: Id)
    ensures Grows(s, DoAuthorizeRecord(s, call, payment))
  {
  }

  lemma AuthorizeFinishGrows(s: State, call: nat)
    ensures Grows(s, DoAuthorizeFinish(s, call))
  {
  }

  lemma ConfirmCommitGrows(s: State, call: nat)
    ensures Grows(s, DoConfirmCommit(s, call))
  {
  }

  lemma ConfirmCaptureGrows(s: State, call: nat)
    ensures Grows(s, DoConfirmCapture(s, call))
  {
  }

  lemma RefundNoteGrows(s: State, call: nat)
    ensures Grows(s, DoRefundNote(s, call))
  {
  }

  lemma RefundCloseGrows(s: State, call: nat)
    ensures Grows(s, DoRefundClose(s, call))
  {
  }

  predicate WritesBooks(a: Action) {
    a.CreateCommit? || a.AuthorizeRecord? || a.AuthorizeFinish? || a.ConfirmCommit? || a.ConfirmCapture?
    || a.RefundNote? || a.RefundClose?
  }

  lemma OthersGrow(s: State, a: Action)
    requires !WritesBooks(a)
    ensures Grows(s, Step(s, a))
  {
    hide Grows, DoCreateStart, DoCreateRead, DoAuthorizeStart, DoConfirmStart, DoConfirmLoad, DoConfirmSell, DoRefundSend,
      DoCrash, DoDispatch, Insert, Hold, Release, VoidUnit, ConfirmSale, DoCreateCommit, DoAuthorizeRecord,
      DoAuthorizeFinish, DoConfirmCommit, DoConfirmCapture, DoRefundNote, DoRefundClose;
    assert SameBooks(s, Step(s, a));
    SameBooksGrow(s, Step(s, a));
  }

  lemma SameBooksGrow(s: State, t: State)
    requires SameBooks(s, t)
    ensures Grows(s, t)
  {
  }

  lemma StepGrows(s: State, a: Action)
    ensures Grows(s, Step(s, a))
  {
    hide Grows, DoHold, DoRelease, DoSellUnit, DoVoid, DoCreateStart, DoCreateRead, DoAuthorizeStart, DoConfirmStart, DoConfirmLoad, DoConfirmSell, DoRefundSend,
      DoCrash, DoDispatch, Insert, Hold, Release, VoidUnit, ConfirmSale, DoCreateCommit, DoAuthorizeRecord,
      DoAuthorizeFinish, DoConfirmCommit, DoConfirmCapture, DoRefundNote, DoRefundClose;
    match a
    case CreateCommit(call, id) => CreateCommitGrows(s, call, id);
    case AuthorizeRecord(call, payment) => AuthorizeRecordGrows(s, call, payment);
    case AuthorizeFinish(call) => AuthorizeFinishGrows(s, call);
    case ConfirmCommit(call) => ConfirmCommitGrows(s, call);
    case ConfirmCapture(call) => ConfirmCaptureGrows(s, call);
    case RefundNote(call) => RefundNoteGrows(s, call);
    case RefundClose(call) => RefundCloseGrows(s, call);
    case _ => OthersGrow(s, a);
  }

  // ---- calls that are creating an order ----

  /** The steps of the call itself, and its death. */
  predicate Touches(a: Action, call: nat) {
    (a.CreateRead? && a.call == call) || (a.CreateCommit? && a.call == call) || (a.Crash? && a.call == call)
  }

  /** Only a start or its own read brings such a call to where it is, and only its own steps or its death move it on. */
  ghost predicate CreatingKept(s: State, a: Action, t: State, c: nat) {
    && s.nextCall <= t.nextCall
    && (c in t.calls && t.calls[c].Creating? && !a.CreateStart? && !(a.CreateRead? && a.call == c) ==>
          c in s.calls && s.calls[c] == t.calls[c])
    && (c < s.nextCall && c in s.calls && s.calls[c].Creating? && !Touches(a, c) ==>
          c in t.calls && t.calls[c] == s.calls[c])
  }

  lemma UnitStepsKeepCreating(s: State, a: Action, c: nat)
    requires a.Tick? || a.CreateUnit? || a.HoldUnit? || a.ReleaseUnit? || a.SellUnit? || a.Withdraw? || a.Dispatch?
    ensures CreatingKept(s, a, Step(s, a), c)
  {
    hide DoCreateStart, DoCreateRead, DoCreateCommit, DoAuthorizeStart, DoAuthorizeRecord, DoAuthorizeFinish,
      DoConfirmStart, DoConfirmLoad, DoConfirmSell, DoConfirmCommit, DoConfirmCapture, DoRefundSend, DoRefundNote,
      DoRefundClose, DoCrash, Insert, Hold, Release, VoidUnit, ConfirmSale;
  }

  lemma CreateStepsKeepCreating(s: State, a: Action, c: nat)
    requires a.CreateStart? || a.CreateRead? || a.CreateCommit? || a.Crash?
    ensures CreatingKept(s, a, Step(s, a), c)
  {
    hide DoHold, DoRelease, DoSellUnit, DoVoid, DoAuthorizeStart, DoAuthorizeRecord, DoAuthorizeFinish,
      DoConfirmStart, DoConfirmLoad, DoConfirmSell, DoConfirmCommit, DoConfirmCapture, DoRefundSend, DoRefundNote,
      DoRefundClose, DoDispatch, Insert, KeyTaken, Carries, LapsedAt, Extended, Admissible;
  }

  lemma AuthorizeStepsKeepCreating(s: State, a: Action, c: nat)
    requires a.AuthorizeStart? || a.AuthorizeRecord? || a.AuthorizeFinish?
    ensures CreatingKept(s, a, Step(s, a), c)
  {
    hide DoHold, DoRelease, DoSellUnit, DoVoid, DoCreateStart, DoCreateRead, DoCreateCommit, DoConfirmStart,
      DoConfirmLoad, DoConfirmSell, DoConfirmCommit, DoConfirmCapture, DoRefundSend, DoRefundNote, DoRefundClose,
      DoCrash, DoDispatch, Insert, PaymentKeyTaken;
  }

  lemma ConfirmStepsKeepCreating(s: State, a: Action, c: nat)
    requires a.ConfirmStart? || a.ConfirmLoad? || a.ConfirmSell? || a.ConfirmCommit? || a.ConfirmCapture?
    ensures CreatingKept(s, a, Step(s, a), c)
  {
    hide DoHold, DoRelease, DoSellUnit, DoVoid, DoCreateStart, DoCreateRead, DoCreateCommit, DoAuthorizeStart,
      DoAuthorizeRecord, DoAuthorizeFinish, DoRefundSend, DoRefundNote, DoRefundClose, DoCrash, DoDispatch, Insert,
      Carries, PaymentMatches, SellAll, RowList;
  }

  lemma RefundStepsKeepCreating(s: State, a: Action, c: nat)
    requires a.RefundSend? || a.RefundNote? || a.RefundClose?
    ensures CreatingKept(s, a, Step(s, a), c)
  {
    hide DoHold, DoRelease, DoSellUnit, DoVoid, DoCreateStart, DoCreateRead, DoCreateCommit, DoAuthorizeStart,
      DoAuthorizeRecord, DoAuthorizeFinish, DoConfirmStart, DoConfirmLoad, DoConfirmSell, DoConfirmCommit,
      DoConfirmCapture, DoCrash, DoDispatch, Insert;
  }

  lemma StepKeepsCreating(s: State, a: Action, c: nat)
    ensures CreatingKept(s, a, Step(s, a), c)
  {
    hide Step, CreatingKept;
    if a.CreateStart? || a.CreateRead? || a.CreateCommit? || a.Crash? {
      CreateStepsKeepCreating(s, a, c);
    } else if a.AuthorizeStart? || a.AuthorizeRecord? || a.AuthorizeFinish? {
      AuthorizeStepsKeepCreating(s, a, c);
    } else if a.ConfirmStart? || a.ConfirmLoad? || a.ConfirmSell? || a.ConfirmCommit? || a.ConfirmCapture? {
      ConfirmStepsKeepCreating(s, a, c);
    } else if a.RefundSend? || a.RefundNote? || a.RefundClose? {
      RefundStepsKeepCreating(s, a, c);
    } else {
      UnitStepsKeepCreating(s, a, c);
    }
  }
}
