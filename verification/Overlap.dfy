/**
 Overlapping confirmations. Webhooks are delivered at least once, and `ConfirmPayment` reads the
 order's status outside its transaction: a second confirmation that has passed the check before
 the first commits finds the units sold, takes that for an expired hold, and refunds a fulfilled
 order. This module says exactly when a fulfilled order can still be refunded.
 */
module Overlap {
  import opened Types
  import opened SeatTable
  import opened Purchase
  import opened Invariants
  import opened Guarantees
  import opened MoneyAndSeats

  // ---- a fulfilled order has a payment ----

  ghost predicate Payable(s: State, order: Id) {
    exists p :: PaymentMatches(s, order, p)
  }

  ghost predicate FulfilledHavePayments(s: State) {
    forall order | Fulfilled(s.sales, order) :: Payable(s, order)
  }

  lemma StepKeepsPayable(s: State, a: Action)
    requires Inv(s) && FulfilledHavePayments(s)
    ensures FulfilledHavePayments(Step(s, a))
  {
    hide Step, RowsOk, LocksOk, SalesOk, FailedOk, KeysOk, OutboxOk, OrdersOk, SalesOf;
    var t := Step(s, a);
    StepGrows(s, a);
    forall order | Fulfilled(t.sales, order) ensures Payable(t, order) {
      if Fulfilled(s.sales, order) {
        var p :| PaymentMatches(s, order, p);
        assert PaymentMatches(t, order, p);
      } else {
        NewSaleIsCommit(s, a, order);
        var p := s.calls[a.call].payment;
        assert CallOk(s.calls[a.call], s.orders, s.payments, s.failed, s.issued);
        assert PaymentMatches(t, order, p);
      }
    }
  }

  lemma NewSaleIsCommit(s: State, a: Action, order: Id)
    requires Fulfilled(Step(s, a).sales, order) && !Fulfilled(s.sales, order)
    ensures a.ConfirmCommit? && ReadyToCommit(s, a.call) && s.calls[a.call].order == order
  {
    hide Hold, Release, VoidUnit, DoCreateStart, DoCreateRead, DoCreateCommit, DoAuthorizeStart, DoAuthorizeRecord,
      DoAuthorizeFinish, DoConfirmStart, DoConfirmLoad, DoConfirmSell, DoConfirmCapture, DoRefundSend, DoRefundNote,
      DoRefundClose, DoCrash, DoDispatch, Insert, SalesOf, SellAll;
    if Step(s, a).sales != s.sales {
      SalesOfAppend(s.sales, Step(s, a).sales[|s.sales|], order);
    }
  }

  lemma {:induction false} ExecKeepsPayable(s: State, run: seq<Action>)
    requires Inv(s) && FulfilledHavePayments(s)
    ensures FulfilledHavePayments(Exec(s, run))
    decreases run
  {
    hide Step, Inv, FulfilledHavePayments;
    if run != [] {
      StepKeeps(s, run[0]);
      StepKeepsPayable(s, run[0]);
      ExecKeepsPayable(Step(s, run[0]), run[1..]);
    }
  }

  // ---- when a fulfilled order can still be refunded ----

  /** A call that can bring a refund of its order about, or make room for one that does. */
  ghost predicate Threatens(s: State, c: Call, order: Id) {
    match c
    case Creating(_, _, _, _, _, _, _) => false
    case Authorizing(o, recorded) => o == order && recorded
    case Confirming(o, payment, stage) =>
      o == order && stage != Committed && (stage == Checked ==> PaymentMatches(s, order, payment))
  }

  /**
   The order's status is no longer `paid`, or a call on it is still in flight: a confirmation
   that passed the status check, or an authorization about to overwrite the status.
   */
  ghost predicate Exposed(s: State, order: Id) {
    && order in s.orders
    && (s.orders[order].status != Paid || exists c :: c in s.calls && Threatens(s, s.calls[c], order))
  }

  function RefundsOf(s: State, order: Id): nat {
    multiset(s.refunds)[order]
  }

  /** Not exposed, in terms of what each action may change. */
  ghost predicate Settled(s: State, order: Id, refunds: nat) {
    order in s.orders && !Exposed(s, order) && RefundsOf(s, order) == refunds
  }

  lemma CreateStartSettled(s: State, tenant: Id, user: Id, key: string, wants: seq<Want>, order: Id)
    requires Settled(s, order, RefundsOf(s, order))
    ensures Settled(DoCreateStart(s, tenant, user, key, wants), order, RefundsOf(s, order))
  {
    hide KeyTaken;
  }

  lemma CreateReadSettled(s: State, call: nat, price: Money, order: Id)
    requires Settled(s, order, RefundsOf(s, order))
    ensures Settled(DoCreateRead(s, call, price), order, RefundsOf(s, order))
  {
    hide Carries, LapsedAt;
  }

  lemma CreateCommitSettled(s: State, call: nat, id: Id, order: Id)
    requires Settled(s, order, RefundsOf(s, order))
    ensures Settled(DoCreateCommit(s, call, id), order, RefundsOf(s, order))
  {
    hide KeyTaken;
  }

  lemma AuthorizeStartSettled(s: State, tenant: Id, id: Id, order: Id)
    requires Settled(s, order, RefundsOf(s, order))
    ensures Settled(DoAuthorizeStart(s, tenant, id), order, RefundsOf(s, order))
  {
  }

  lemma AuthorizeRecordSettled(s: State, call: nat, payment: Id, order: Id)
    requires Inv(s) && Payable(s, order) && Settled(s, order, RefundsOf(s, order))
    ensures Settled(DoAuthorizeRecord(s, call, payment), order, RefundsOf(s, order))
  {
    hide RowsOk, OrdersOk, CallsOk, LocksOk, SalesOk, OutboxOk, FailedOk;
  }

  lemma AuthorizeFinishSettled(s: State, call: nat, order: Id)
    requires Settled(s, order, RefundsOf(s, order))
    ensures Settled(DoAuthorizeFinish(s, call), order, RefundsOf(s, order))
  {
  }

  lemma ConfirmStartSettled(s: State, tenant: Id, id: Id, payment: Id, order: Id)
    requires Settled(s, order, RefundsOf(s, order))
    ensures Settled(DoConfirmStart(s, tenant, id, payment), order, RefundsOf(s, order))
  {
  }

  lemma ConfirmLoadSettled(s: State, call: nat, order: Id)
    requires Settled(s, order, RefundsOf(s, order))
    ensures Settled(DoConfirmLoad(s, call), order, RefundsOf(s, order))
  {
  }

  lemma ConfirmSellSettled(s: State, call: nat, order: Id)
    requires Settled(s, order, RefundsOf(s, order))
    ensures Settled(DoConfirmSell(s, call), order, RefundsOf(s, order))
  {
    hide Carries;
  }

  lemma ConfirmCommitSettled(s: State, call: nat, order: Id)
    requires Settled(s, order, RefundsOf(s, order))
    ensures Settled(DoConfirmCommit(s, call), order, RefundsOf(s, order))
  {
    hide SellAll;
  }

  lemma ConfirmCaptureSettled(s: State, call: nat, order: Id)
    requires Settled(s, order, RefundsOf(s, order))
    ensures Settled(DoConfirmCapture(s, call), order, RefundsOf(s, order))
  {
  }

  lemma RefundSendSettled(s: State, call: nat, order: Id)
    requires Settled(s, order, RefundsOf(s, order))
    ensures Settled(DoRefundSend(s, call), order, RefundsOf(s, order))
  {
  }

  lemma RefundNoteSettled(s: State, call: nat, order: Id)
    requires Settled(s, order, RefundsOf(s, order))
    ensures Settled(DoRefundNote(s, call), order, RefundsOf(s, order))
  {
  }

  lemma RefundCloseSettled(s: State, call: nat, order: Id)
    requires Settled(s, order, RefundsOf(s, order))
    ensures Settled(DoRefundClose(s, call), order, RefundsOf(s, order))
  {
  }

  lemma QuietSettled(s: State, a: Action, order: Id)
    requires a.Tick? || a.CreateUnit? || a.HoldUnit? || a.ReleaseUnit? || a.SellUnit? || a.Withdraw? || a.Crash? || a.Dispatch?
    requires Settled(s, order, RefundsOf(s, order))
    ensures Settled(Step(s, a), order, RefundsOf(s, order))
  {
    hide DoCreateStart, DoCreateRead, DoCreateCommit, DoAuthorizeStart, DoAuthorizeRecord, DoAuthorizeFinish,
      DoConfirmStart, DoConfirmLoad, DoConfirmSell, DoConfirmCommit, DoConfirmCapture, DoRefundSend, DoRefundNote,
      DoRefundClose, Insert, Hold, Release, VoidUnit, ConfirmSale;
  }

  lemma StepSettled(s: State, a: Action, order: Id)
    requires Inv(s) && Payable(s, order) && Settled(s, order, RefundsOf(s, order))
    ensures Settled(Step(s, a), order, RefundsOf(s, order))
  {
    hide Inv, Settled, Payable, RefundsOf, DoHold, DoRelease, DoSellUnit, DoVoid, DoCreateStart, DoCreateRead,
      DoCreateCommit, DoAuthorizeStart, DoAuthorizeRecord, DoAuthorizeFinish, DoConfirmStart, DoConfirmLoad,
      DoConfirmSell, DoConfirmCommit, DoConfirmCapture, DoRefundSend, DoRefundNote, DoRefundClose, DoCrash,
      DoDispatch, Insert;
    match a
    case CreateStart(tenant, user, key, wants) => CreateStartSettled(s, tenant, user, key, wants, order);
    case CreateRead(call, price) => CreateReadSettled(s, call, price, order);
    case CreateCommit(call, id) => CreateCommitSettled(s, call, id, order);
    case AuthorizeStart(tenant, id) => AuthorizeStartSettled(s, tenant, id, order);
    case AuthorizeRecord(call, payment) => AuthorizeRecordSettled(s, call, payment, order);
    case AuthorizeFinish(call) => AuthorizeFinishSettled(s, call, order);
    case ConfirmStart(tenant, id, payment) => ConfirmStartSettled(s, tenant, id, payment, order);
    case ConfirmLoad(call) => ConfirmLoadSettled(s, call, order);
    case ConfirmSell(call) => ConfirmSellSettled(s, call, order);
    case ConfirmCommit(call) => ConfirmCommitSettled(s, call, order);
    case ConfirmCapture(call) => ConfirmCaptureSettled(s, call, order);
    case RefundSend(call) => RefundSendSettled(s, call, order);
    case RefundNote(call) => RefundNoteSettled(s, call, order);
    case RefundClose(call) => RefundCloseSettled(s, call, order);
    case _ => QuietSettled(s, a, order);
  }

  lemma {:induction false} ExecSettled(s: State, run: seq<Action>, order: Id)
    requires Inv(s) && Payable(s, order) && Settled(s, order, RefundsOf(s, order))
    ensures RefundsOf(Exec(s, run), order) == RefundsOf(s, order)
    decreases run
  {
    hide Inv, Step, Exposed;
    if run != [] {
      StepKeeps(s, run[0]);
      StepSettled(s, run[0], order);
      StepGrows(s, run[0]);
      var p :| PaymentMatches(s, order, p);
      assert PaymentMatches(Step(s, run[0]), order, p);
      ExecSettled(Step(s, run[0]), run[1..], order);
    }
  }

  // ---- and when it is exposed, a refund is a few actions away ----

  /** A run after which the gateway has been asked once more to refund the order. */
  ghost predicate Refunds(s: State, run: seq<Action>, order: Id) {
    RefundsOf(Exec(s, run), order) > RefundsOf(s, order)
  }

  lemma Prepend(s: State, a: Action, run: seq<Action>, order: Id)
    requires Refunds(Step(s, a), run, order)
    requires RefundsOf(Step(s, a), order) == RefundsOf(s, order)
    ensures Refunds(s, [a] + run, order)
  {
    hide Step, RefundsOf;
    assert ([a] + run)[1..] == run;
  }

  lemma FromAborted(s: State, call: nat, order: Id)
    requires AtStage(s, call, Aborted) && s.calls[call].order == order
    ensures Refunds(s, [RefundSend(call)], order)
  {
    hide Exec;
    ExecOne(s, RefundSend(call));
  }

  /** With the order's units sold, an open confirmation of it can only abort. */
  lemma SellAborts(s: State, call: nat, order: Id)
    requires Inv(s) && Fulfilled(s.sales, order)
    requires IsSelling(s, call) && s.calls[call].order == order
    ensures
      var t := Step(s, ConfirmSell(call));
      AtStage(t, call, Aborted) && t.calls[call].order == order && t.refunds == s.refunds
  {
    hide RowsOk, SalesOk, OutboxOk, KeysOk, FailedOk, SalesOf, Fulfilled;
    var items := s.orders[order].items;
    assert CallOk(s.calls[call], s.orders, s.payments, s.failed, s.issued);
    assert items[0] in items;
    FulfilledUnitsGone(s, order, items[0]);
    assert CallLocks(s.locks, s.table, s.orders, call, s.calls[call]);
  }

  lemma FromSelling(s: State, call: nat, order: Id)
    requires Inv(s) && Fulfilled(s.sales, order)
    requires IsSelling(s, call) && s.calls[call].order == order
    ensures Refunds(s, [ConfirmSell(call), RefundSend(call)], order)
  {
    hide Inv, Step, Exec, Fulfilled;
    SellAborts(s, call, order);
    FromAborted(Step(s, ConfirmSell(call)), call, order);
    Prepend(s, ConfirmSell(call), [RefundSend(call)], order);
    assert [ConfirmSell(call), RefundSend(call)] == [ConfirmSell(call)] + [RefundSend(call)];
  }

  lemma FromChecked(s: State, call: nat, order: Id)
    requires Inv(s) && Fulfilled(s.sales, order)
    requires AtStage(s, call, Checked) && s.calls[call].order == order
    requires PaymentMatches(s, order, s.calls[call].payment)
    ensures Refunds(s, [ConfirmLoad(call)] + [ConfirmSell(call), RefundSend(call)], order)
  {
    hide Inv, Exec, Fulfilled;
    StepKeeps(s, ConfirmLoad(call));
    FromSelling(Step(s, ConfirmLoad(call)), call, order);
    Prepend(s, ConfirmLoad(call), [ConfirmSell(call), RefundSend(call)], order);
  }

  /** A fulfilled order whose status is not `paid` is refunded by the next confirmation. */
  lemma FromUnpaid(s: State, order: Id) returns (run: seq<Action>)
    requires Inv(s) && Fulfilled(s.sales, order) && Payable(s, order)
    requires order in s.orders && s.orders[order].status != Paid
    ensures Refunds(s, run, order)
  {
    hide Inv, Exec, Fulfilled;
    var p :| PaymentMatches(s, order, p);
    var a := ConfirmStart(s.orders[order].tenant, order, p);
    StepKeeps(s, a);
    run := [ConfirmLoad(s.nextCall)] + [ConfirmSell(s.nextCall), RefundSend(s.nextCall)];
    FromChecked(Step(s, a), s.nextCall, order);
    Prepend(s, a, run, order);
    run := [a] + run;
  }

  lemma FromExposed(s: State, order: Id) returns (run: seq<Action>)
    requires Inv(s) && Fulfilled(s.sales, order) && Payable(s, order) && Exposed(s, order)
    ensures Refunds(s, run, order)
  {
    hide Inv, Exec, Fulfilled;
    if s.orders[order].status != Paid {
      run := FromUnpaid(s, order);
    } else {
      var c :| c in s.calls && Threatens(s, s.calls[c], order);
      run := FromThreat(s, c, order);
    }
  }

  lemma FromThreat(s: State, c: nat, order: Id) returns (run: seq<Action>)
    requires Inv(s) && Fulfilled(s.sales, order) && Payable(s, order)
    requires order in s.orders && c in s.calls && Threatens(s, s.calls[c], order)
    ensures Refunds(s, run, order)
  {
    hide Inv, Exec, Step, Fulfilled, Refunds;
    if s.calls[c].Authorizing? {
      run := FromFinish(s, AuthorizeFinish(c), order);
    } else {
      match s.calls[c].stage
      case Checked =>
        FromChecked(s, c, order);
        run := [ConfirmLoad(c)] + [ConfirmSell(c), RefundSend(c)];
      case Selling(_) =>
        FromSelling(s, c, order);
        run := [ConfirmSell(c), RefundSend(c)];
      case Aborted =>
        FromAborted(s, c, order);
        run := [RefundSend(c)];
      case RefundSent =>
        run := FromNoting(s, c, order);
      case RefundNoted =>
        run := FromFinish(s, RefundClose(c), order);
    }
  }

  /** The unconditional status updates at the end of an authorization or a refund. */
  lemma FromFinish(s: State, a: Action, order: Id) returns (run: seq<Action>)
    requires Inv(s) && Fulfilled(s.sales, order) && Payable(s, order) && order in s.orders
    requires (a.AuthorizeFinish? && a.call in s.calls && s.calls[a.call] == Authorizing(order, true))
          || (a.RefundClose? && AtStage(s, a.call, RefundNoted) && s.calls[a.call].order == order)
    ensures Refunds(s, run, order)
  {
    hide Inv, Exec, Fulfilled;
    StepKeeps(s, a);
    var t := Step(s, a);
    var p :| PaymentMatches(s, order, p);
    assert PaymentMatches(t, order, p);
    run := FromUnpaid(t, order);
    Prepend(s, a, run, order);
    run := [a] + run;
  }

  lemma FromNoting(s: State, c: nat, order: Id) returns (run: seq<Action>)
    requires Inv(s) && Fulfilled(s.sales, order) && Payable(s, order) && order in s.orders
    requires AtStage(s, c, RefundSent) && s.calls[c].order == order
    ensures Refunds(s, run, order)
  {
    hide Inv, Exec, Fulfilled;
    var a := RefundNote(c);
    StepKeeps(s, a);
    var t := Step(s, a);
    var p :| PaymentMatches(s, order, p);
    assert PaymentMatches(t, order, p);
    run := FromFinish(t, RefundClose(c), order);
    Prepend(s, a, run, order);
    run := [a] + run;
  }

  /**
   Exactly when a fulfilled order can still be refunded: after any run that has sold an order,
   some continuation asks the gateway for a refund of it if and only if the order is exposed.
   */
  lemma RefundPossibleIffExposed(run: seq<Action>, order: Id)
    requires SalesOf(Exec(START, run).sales, order) == 1
    ensures
      var s := Exec(START, run);
      Exposed(s, order) <==> exists later :: Refunds(s, later, order)
  {
    hide Inv, Step, Exec, SalesOf, Exposed, Payable, FulfilledHavePayments;
    var s := Exec(START, run);
    RunOk(run);
    StartOk();
    NoPaymentsNeededYet();
    ExecKeepsPayable(START, run);
    assert Payable(s, order) by { PayableNow(s, order); }
    if Exposed(s, order) {
      var later := FromExposed(s, order);
    } else {
      forall later ensures !Refunds(s, later, order) {
        FulfilledOrderKnown(s, order);
        ExecSettled(s, later, order);
      }
    }
  }

  lemma NoPaymentsNeededYet()
    ensures FulfilledHavePayments(START)
  {
  }

  lemma PayableNow(s: State, order: Id)
    requires FulfilledHavePayments(s) && Fulfilled(s.sales, order)
    ensures Payable(s, order)
  {
    hide Payable;
  }

  /** Where calls on one order do not overlap, a fulfilled order is never exposed. */
  lemma AloneIsNeverExposed(run: seq<Action>, order: Id)
    requires AloneRun(START, run)
    requires SalesOf(Exec(START, run).sales, order) == 1
    ensures !Exposed(Exec(START, run), order)
  {
    hide Inv, Step, Exec, SalesOf;
    StartOk();
    ExecMoney(START, run);
  }
}
