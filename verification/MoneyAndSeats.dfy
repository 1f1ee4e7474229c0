/**
 Money and seats. When the calls on one order do not overlap, a captured payment, a paid order
 and a sale go together and exclude a refund, whatever fails on the way. When they do overlap
 these promises are false of the code; modules Overlap and PaidAndCaptured say exactly when.
 */
module MoneyAndSeats {
  import opened Types
  import opened SeatTable
  import opened Purchase
  import opened Invariants
  import opened Guarantees

  ghost predicate Fulfilled(sales: seq<Sale>, order: Id) {
    SalesOf(sales, order) > 0
  }

  function CallOrder(c: Call): Option<Id> {
    match c
    case Creating(_, _, _, _, _, _, _) => None
    case Authorizing(order, _) => Some(order)
    case Confirming(order, _, _) => Some(order)
  }

  ghost predicate Busy(calls: map<nat, Call>, order: Id) {
    exists c :: c in calls && CallOrder(calls[c]) == Some(order)
  }

  /** A call on an order starts only when no other call on that order is in flight. */
  ghost predicate Alone(s: State, a: Action) {
    && (a.AuthorizeStart? ==> !Busy(s.calls, a.order))
    && (a.ConfirmStart? ==> !Busy(s.calls, a.order))
  }

  ghost predicate AloneRun(s: State, run: seq<Action>)
    decreases run
  {
    run != [] ==> Alone(s, run[0]) && AloneRun(Step(s, run[0]), run[1..])
  }

  // ---- the invariant of such runs ----

  ghost predicate StatusesOk(orders: map<Id, Order>, sales: seq<Sale>) {
    forall o | o in orders :: orders[o].status == Paid <==> Fulfilled(sales, o)
  }

  ghost predicate PaymentsOk(payments: map<Id, Payment>, sales: seq<Sale>, failed: set<Id>) {
    forall p | p in payments ::
      && (payments[p].status == Captured ==> Fulfilled(sales, payments[p].order))
      && (payments[p].status == Refunded ==> payments[p].order in failed && !Fulfilled(sales, payments[p].order))
  }

  ghost predicate RefundsOk(refunds: seq<Id>, sales: seq<Sale>, failed: set<Id>) {
    forall o | o in refunds :: o in failed && !Fulfilled(sales, o)
  }

  ghost predicate CallAgrees(c: Call, sales: seq<Sale>) {
    match c
    case Creating(_, _, _, _, _, _, _) => true
    case Authorizing(order, _) => !Fulfilled(sales, order)
    case Confirming(order, _, stage) => stage == Committed <==> Fulfilled(sales, order)
  }

  ghost predicate CallsAgree(calls: map<nat, Call>, sales: seq<Sale>) {
    && (forall c | c in calls :: CallAgrees(calls[c], sales))
    && (forall c, d | c in calls && d in calls && c != d ::
          CallOrder(calls[c]).None? || CallOrder(calls[c]) != CallOrder(calls[d]))
  }

  ghost predicate MoneyOk(s: State) {
    && StatusesOk(s.orders, s.sales)
    && PaymentsOk(s.payments, s.sales, s.failed)
    && RefundsOk(s.refunds, s.sales, s.failed)
    && CallsAgree(s.calls, s.sales)
  }

  // ---- one lemma per kind of action ----

  lemma FulfilledIsKnown(s: State, order: Id)
    requires SalesOk(s.sales, s.orders, s.table)
    ensures Fulfilled(s.sales, order) ==> order in s.orders
  {
    hide SalesOf;
    if Fulfilled(s.sales, order) {
      var k := SaleAt(s.sales, order);
      assert SaleOk(s.sales[k], s.orders, s.table);
    }
  }

  lemma CreateStartMoney(s: State, tenant: Id, user: Id, key: string, wants: seq<Want>)
    requires Inv(s) && MoneyOk(s)
    ensures MoneyOk(DoCreateStart(s, tenant, user, key, wants))
  {
    hide Inv, KeyTaken, Fulfilled;
  }

  lemma CreateReadMoney(s: State, call: nat, price: Money)
    requires MoneyOk(s)
    ensures MoneyOk(DoCreateRead(s, call, price))
  {
    hide Carries, LapsedAt, Fulfilled;
  }

  lemma CreateCommitMoney(s: State, call: nat, order: Id)
    requires Inv(s) && MoneyOk(s)
    ensures MoneyOk(DoCreateCommit(s, call, order))
  {
    hide KeyTaken, Fulfilled, RowsOk, OrdersOk, OutboxOk, KeysOk, FailedOk, LocksOk, CallsOk, SalesOk;
    FulfilledIsKnown(s, order);
  }

  lemma AuthorizeStartMoney(s: State, tenant: Id, order: Id)
    requires Inv(s) && MoneyOk(s) && !Busy(s.calls, order)
    ensures MoneyOk(DoAuthorizeStart(s, tenant, order))
  {
    hide Inv, Fulfilled;
  }

  lemma AuthorizeRecordMoney(s: State, call: nat, payment: Id)
    requires MoneyOk(s)
    ensures MoneyOk(DoAuthorizeRecord(s, call, payment))
  {
    hide PaymentKeyTaken, Fulfilled;
  }

  lemma AuthorizeFinishMoney(s: State, call: nat)
    requires MoneyOk(s)
    ensures MoneyOk(DoAuthorizeFinish(s, call))
  {
    hide Fulfilled;
  }

  lemma ConfirmStartMoney(s: State, tenant: Id, order: Id, payment: Id)
    requires Inv(s) && MoneyOk(s) && !Busy(s.calls, order)
    ensures MoneyOk(DoConfirmStart(s, tenant, order, payment))
  {
    hide Inv, Fulfilled;
  }

  lemma ConfirmLoadMoney(s: State, call: nat)
    requires MoneyOk(s)
    ensures MoneyOk(DoConfirmLoad(s, call))
  {
    hide Fulfilled;
  }

  lemma ConfirmSellMoney(s: State, call: nat)
    requires MoneyOk(s)
    ensures MoneyOk(DoConfirmSell(s, call))
  {
    hide Fulfilled, Carries;
  }

  lemma SellUnitMoney(s: State, tenant: Id, id: Id, token: Id)
    requires MoneyOk(s)
    ensures MoneyOk(DoSellUnit(s, tenant, id, token))
  {
    hide SalesOf;
    var more := s.sales + [Sale(None, [id])];
    forall order ensures Fulfilled(more, order) == Fulfilled(s.sales, order) {
      SalesOfAppend(s.sales, Sale(None, [id]), order);
    }
  }

  /** The commit: a sale of an order that has no other call in flight and never aborted. */
  lemma ConfirmCommitMoney(s: State, call: nat)
    requires Inv(s) && MoneyOk(s)
    ensures MoneyOk(DoConfirmCommit(s, call))
  {
    hide SalesOf, SellAll, RowsOk, OrdersOk, OutboxOk, KeysOk, LocksOk, CallsOk, SalesOk;
    if ReadyToCommit(s, call) {
      var id := s.calls[call].order;
      var sale := Sale(Some(id), RowList(s.orders[id].items));
      CommitIsAtomic(s, call);
      assert id !in s.failed;
      forall order ensures Fulfilled(s.sales + [sale], order) <==> (order == id || Fulfilled(s.sales, order)) {
        SalesOfAppend(s.sales, sale, order);
      }
    }
  }

  lemma ConfirmCaptureMoney(s: State, call: nat)
    requires Inv(s) && MoneyOk(s)
    ensures MoneyOk(DoConfirmCapture(s, call))
  {
    hide Fulfilled, RowsOk, OrdersOk, OutboxOk, KeysOk, LocksOk, SalesOk, FailedOk;
  }

  lemma RefundSendMoney(s: State, call: nat)
    requires Inv(s) && MoneyOk(s)
    ensures MoneyOk(DoRefundSend(s, call))
  {
    hide Fulfilled, RowsOk, OrdersOk, OutboxOk, KeysOk, LocksOk, SalesOk, FailedOk;
  }

  lemma RefundNoteMoney(s: State, call: nat)
    requires Inv(s) && MoneyOk(s)
    ensures MoneyOk(DoRefundNote(s, call))
  {
    hide Fulfilled, RowsOk, OrdersOk, OutboxOk, KeysOk, LocksOk, SalesOk, FailedOk;
  }

  lemma RefundCloseMoney(s: State, call: nat)
    requires MoneyOk(s)
    ensures MoneyOk(DoRefundClose(s, call))
  {
    hide Fulfilled;
  }

  /** Actions that leave orders, payments, refunds and every order's fulfilment alone. */
  lemma QuietMoney(s: State, a: Action)
    requires MoneyOk(s)
    requires a.Tick? || a.CreateUnit? || a.HoldUnit? || a.ReleaseUnit? || a.Withdraw? || a.Crash? || a.Dispatch?
    ensures MoneyOk(Step(s, a))
  {
    hide Fulfilled, DoSellUnit, DoCreateStart, DoCreateRead, DoCreateCommit,
      DoAuthorizeStart, DoAuthorizeRecord, DoAuthorizeFinish, DoConfirmStart, DoConfirmLoad, DoConfirmSell,
      DoConfirmCommit, DoConfirmCapture, DoRefundSend, DoRefundNote, DoRefundClose, Insert, Hold, Release, VoidUnit;
  }

  lemma StepMoney(s: State, a: Action)
    requires Inv(s) && MoneyOk(s) && Alone(s, a)
    ensures MoneyOk(Step(s, a))
  {
    hide Inv, MoneyOk, Busy, DoHold, DoRelease, DoSellUnit, DoVoid, DoCreateStart, DoCreateRead, DoCreateCommit,
      DoAuthorizeStart, DoAuthorizeRecord, DoAuthorizeFinish, DoConfirmStart, DoConfirmLoad, DoConfirmSell,
      DoConfirmCommit, DoConfirmCapture, DoRefundSend, DoRefundNote, DoRefundClose, DoCrash, DoDispatch, Insert;
    match a
    case CreateStart(tenant, user, key, wants) => CreateStartMoney(s, tenant, user, key, wants);
    case CreateRead(call, price) => CreateReadMoney(s, call, price);
    case CreateCommit(call, order) => CreateCommitMoney(s, call, order);
    case AuthorizeStart(tenant, order) => AuthorizeStartMoney(s, tenant, order);
    case AuthorizeRecord(call, payment) => AuthorizeRecordMoney(s, call, payment);
    case AuthorizeFinish(call) => AuthorizeFinishMoney(s, call);
    case ConfirmStart(tenant, order, payment) => ConfirmStartMoney(s, tenant, order, payment);
    case ConfirmLoad(call) => ConfirmLoadMoney(s, call);
    case ConfirmSell(call) => ConfirmSellMoney(s, call);
    case ConfirmCommit(call) => ConfirmCommitMoney(s, call);
    case ConfirmCapture(call) => ConfirmCaptureMoney(s, call);
    case RefundSend(call) => RefundSendMoney(s, call);
    case RefundNote(call) => RefundNoteMoney(s, call);
    case RefundClose(call) => RefundCloseMoney(s, call);
    case SellUnit(tenant, id, token) => SellUnitMoney(s, tenant, id, token);
    case _ => QuietMoney(s, a);
  }

  lemma {:induction false} ExecMoney(s: State, run: seq<Action>)
    requires Inv(s) && MoneyOk(s) && AloneRun(s, run)
    ensures MoneyOk(Exec(s, run))
    decreases run
  {
    hide Inv, MoneyOk, Step;
    if run != [] {
      StepKeeps(s, run[0]);
      StepMoney(s, run[0]);
      ExecMoney(Step(s, run[0]), run[1..]);
    }
  }

  /**
   In every run whose calls on one order do not overlap, with a failure possible at any point of
   any call: a captured payment means a paid order whose units are all sold (or withdrawn since);
   an order is paid exactly when it is fulfilled; and no order is both fulfilled and refunded,
   be it by the gateway's record or by the payment's status.
   */
  lemma MoneyAndSeatsAgree(run: seq<Action>)
    requires AloneRun(START, run)
    ensures
      var s := Exec(START, run);
      && (forall p | p in s.payments && s.payments[p].status == Captured ::
            && s.payments[p].order in s.orders
            && s.orders[s.payments[p].order].status == Paid
            && forall it | it in s.orders[s.payments[p].order].items :: Gone(s.table, it.row))
      && (forall o | o in s.orders :: s.orders[o].status == Paid <==> SalesOf(s.sales, o) == 1)
      && (forall o | o in s.refunds :: SalesOf(s.sales, o) == 0)
      && (forall p | p in s.payments && s.payments[p].status == Refunded :: SalesOf(s.sales, s.payments[p].order) == 0)
  {
    hide Exec, RowsOk, LockedPrefix, CallsOk, LocksOk, SalesOf;
    StartOk();
    ExecMoney(START, run);
    RunOk(run);
    var s := Exec(START, run);
    forall o | o in s.orders ensures SalesOf(s.sales, o) <= 1 {
      AtMostOneSale(s.sales, s.orders, s.table, o);
    }
    forall p, it | p in s.payments && s.payments[p].status == Captured && it in s.orders[s.payments[p].order].items
      ensures Gone(s.table, it.row)
    {
      FulfilledUnitsGone(s, s.payments[p].order, it);
    }
  }

  lemma FulfilledUnitsGone(s: State, order: Id, it: Item)
    requires SalesOk(s.sales, s.orders, s.table)
    requires order in s.orders && Fulfilled(s.sales, order) && it in s.orders[order].items
    ensures Gone(s.table, it.row)
  {
    hide SalesOf;
    var k := SaleAt(s.sales, order);
    assert SaleOk(s.sales[k], s.orders, s.table);
    var n :| 0 <= n < |s.orders[order].items| && s.orders[order].items[n] == it;
    assert s.sales[k].rows[n] == it.row;
  }

  // ---- 'paid' is absorbing ----

  /** The log of sales only grows. */
  lemma StepKeepsFulfilled(s: State, a: Action, order: Id)
    ensures Fulfilled(s.sales, order) ==> Fulfilled(Step(s, a).sales, order)
  {
    hide Hold, Release, VoidUnit, DoCreateStart, DoCreateRead, DoCreateCommit, DoAuthorizeStart, DoAuthorizeRecord,
      DoAuthorizeFinish, DoConfirmStart, DoConfirmLoad, DoConfirmSell, DoConfirmCapture, DoRefundSend, DoRefundNote,
      DoRefundClose, DoCrash, DoDispatch, Insert, SalesOf, SellAll;
    if Step(s, a).sales != s.sales {
      SalesOfAppend(s.sales, Step(s, a).sales[|s.sales|], order);
    }
  }

  lemma {:induction false} ExecKeepsFulfilled(s: State, run: seq<Action>, order: Id)
    ensures Fulfilled(s.sales, order) ==> Fulfilled(Exec(s, run).sales, order)
    decreases run
  {
    hide Step, Fulfilled;
    if run != [] {
      StepKeepsFulfilled(s, run[0], order);
      ExecKeepsFulfilled(Step(s, run[0]), run[1..], order);
    }
  }

  /** A paid order stays paid for as long as calls on one order do not overlap. */
  lemma PaidIsAbsorbing(run: seq<Action>, later: seq<Action>, order: Id)
    requires AloneRun(START, run + later)
    requires order in Exec(START, run).orders && Exec(START, run).orders[order].status == Paid
    ensures
      var t := Exec(START, run + later);
      order in t.orders && t.orders[order].status == Paid
  {
    hide Inv, Step, Exec, Fulfilled;
    var s := Exec(START, run);
    AloneSplit(START, run, later);
    StartOk();
    RunOk(run);
    ExecMoney(START, run);
    ExecConcat(START, run, later);
    ExecKeepsFulfilled(s, later, order);
    ExecMoney(s, later);
    ExecKeeps(s, later);
    FulfilledOrderKnown(Exec(s, later), order);
  }

  lemma FulfilledOrderKnown(s: State, order: Id)
    requires Inv(s)
    ensures Fulfilled(s.sales, order) ==> order in s.orders
  {
    hide RowsOk, LocksOk, CallsOk, SalesOk, Fulfilled;
    FulfilledIsKnown(s, order);
  }

  lemma {:induction false} AloneSplit(s: State, run: seq<Action>, later: seq<Action>)
    requires AloneRun(s, run + later)
    ensures AloneRun(s, run) && AloneRun(Exec(s, run), later)
    decreases run
  {
    hide Step, Alone;
    if run == [] {
      assert run + later == later;
    } else {
      assert (run + later)[1..] == run[1..] + later;
      AloneSplit(Step(s, run[0]), run[1..], later);
    }
  }
}
