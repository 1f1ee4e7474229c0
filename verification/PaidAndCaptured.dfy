/**
 What overlapping calls do to the statuses. A paid order can leave `paid`, and a captured payment
 can end up with an order that is not paid; for both, the exact condition on the present state.
 What no overlap can break: a paid order and a captured payment always have their sale.
 */
module PaidAndCaptured {
  import opened Types
  import opened SeatTable
  import opened Ledger
  import opened Purchase
  import opened Invariants
  import opened Guarantees
  import opened MoneyAndSeats
  import opened Overlap

  predicate Unpaid(s: State, order: Id) {
    order in s.orders && s.orders[order].status != Paid
  }

  // ---- an exposed order can leave 'paid' ----

  /** Confirmations that have committed and not yet captured are where they were. */
  ghost predicate KeepsCommitted(s: State, t: State) {
    forall c | AtStage(s, c, Committed) :: c in t.calls && t.calls[c] == s.calls[c]
  }

  /** A confirmation that has passed its checks or will pass them, and has not committed. */
  ghost predicate Pushable(s: State, c: nat, order: Id) {
    && c in s.calls && s.calls[c].Confirming? && s.calls[c].order == order && s.calls[c].stage != Committed
    && (s.calls[c].stage == Checked ==> PaymentMatches(s, order, s.calls[c].payment))
  }

  function Push(c: nat, stage: Stage): Action
    requires stage != Committed
  {
    match stage
    case Checked => ConfirmLoad(c)
    case Selling(_) => ConfirmSell(c)
    case Aborted => RefundSend(c)
    case RefundSent => RefundNote(c)
    case RefundNoted => RefundClose(c)
  }

  function Remaining(stage: Stage): nat {
    match stage
    case Checked => 5
    case Selling(_) => 4
    case Aborted => 3
    case RefundSent => 2
    case RefundNoted => 1
    case Committed => 0
  }

  /** The order is unpaid, or the confirmation is one step closer to closing it. */
  ghost predicate Closer(s: State, t: State, c: nat, order: Id)
    requires c in s.calls && s.calls[c].Confirming?
  {
    && KeepsCommitted(s, t) && t.sales == s.sales && order in t.orders
    && (Unpaid(t, order) || (Pushable(t, c, order) && Remaining(t.calls[c].stage) < Remaining(s.calls[c].stage)))
  }

  lemma LoadPushes(s: State, c: nat, order: Id)
    requires Pushable(s, c, order) && order in s.orders && s.calls[c].stage == Checked
    ensures Closer(s, DoConfirmLoad(s, c), c, order)
  {
  }

  lemma SendPushes(s: State, c: nat, order: Id)
    requires Pushable(s, c, order) && order in s.orders && s.calls[c].stage == Aborted
    ensures Closer(s, DoRefundSend(s, c), c, order)
  {
  }

  lemma NotePushes(s: State, c: nat, order: Id)
    requires Pushable(s, c, order) && order in s.orders && s.calls[c].stage == RefundSent
    ensures Closer(s, DoRefundNote(s, c), c, order)
  {
  }

  lemma ClosePushes(s: State, c: nat, order: Id)
    requires Pushable(s, c, order) && order in s.orders && s.calls[c].stage == RefundNoted
    ensures Closer(s, DoRefundClose(s, c), c, order)
  {
  }

  lemma SellPushes(s: State, c: nat, order: Id)
    requires Inv(s) && Fulfilled(s.sales, order)
    requires Pushable(s, c, order) && order in s.orders && s.calls[c].stage.Selling?
    ensures Closer(s, DoConfirmSell(s, c), c, order)
  {
    hide Inv, Fulfilled, Carries;
    SellAborts(s, c, order);
    assert Step(s, ConfirmSell(c)) == DoConfirmSell(s, c);
    hide Step;
  }

  lemma Pushes(s: State, c: nat, order: Id)
    requires Inv(s) && Fulfilled(s.sales, order) && Pushable(s, c, order) && order in s.orders
    ensures Closer(s, Step(s, Push(c, s.calls[c].stage)), c, order)
  {
    hide Inv, Fulfilled, Closer, DoHold, DoRelease, DoSellUnit, DoVoid, DoCreateStart, DoCreateRead, DoCreateCommit,
      DoAuthorizeStart, DoAuthorizeRecord, DoAuthorizeFinish, DoConfirmStart, DoConfirmLoad, DoConfirmSell,
      DoConfirmCommit, DoConfirmCapture, DoRefundSend, DoRefundNote, DoRefundClose, DoCrash, DoDispatch, Insert;
    match s.calls[c].stage
    case Checked => LoadPushes(s, c, order);
    case Selling(_) => SellPushes(s, c, order);
    case Aborted => SendPushes(s, c, order);
    case RefundSent => NotePushes(s, c, order);
    case RefundNoted => ClosePushes(s, c, order);
  }

  /** Left to itself, a threatening confirmation takes the order out of `paid`. */
  lemma {:induction false} PushToTheEnd(s: State, c: nat, order: Id) returns (run: seq<Action>)
    requires Inv(s) && Fulfilled(s.sales, order) && Pushable(s, c, order) && order in s.orders
    ensures Unpaid(Exec(s, run), order) && KeepsCommitted(s, Exec(s, run))
    decreases Remaining(s.calls[c].stage)
  {
    hide Inv, Fulfilled, Step, Pushable;
    assert c in s.calls && s.calls[c].Confirming? && s.calls[c].stage != Committed by { PushableHas(s, c, order); }
    var a := Push(c, s.calls[c].stage);
    var t := Step(s, a);
    StepKeeps(s, a);
    Pushes(s, c, order);
    if Unpaid(t, order) {
      run := [a];
      ExecOne(s, a);
    } else {
      PushableHas(t, c, order);
      var rest := PushToTheEnd(t, c, order);
      run := [a] + rest;
      assert run[1..] == rest;
    }
  }

  lemma PushableHas(s: State, c: nat, order: Id)
    requires Pushable(s, c, order)
    ensures c in s.calls && s.calls[c].Confirming? && s.calls[c].stage != Committed
  {
  }

  lemma FinishUnpays(s: State, c: nat, order: Id)
    requires c in s.calls && s.calls[c] == Authorizing(order, true) && order in s.orders
    ensures Unpaid(DoAuthorizeFinish(s, c), order) && KeepsCommitted(s, DoAuthorizeFinish(s, c))
  {
  }

  lemma ExposedToUnpaid(s: State, order: Id) returns (run: seq<Action>)
    requires Inv(s) && Fulfilled(s.sales, order) && Exposed(s, order)
    ensures Unpaid(Exec(s, run), order) && KeepsCommitted(s, Exec(s, run))
  {
    hide Inv, Fulfilled;
    if s.orders[order].status != Paid {
      run := [];
    } else {
      var c :| c in s.calls && Threatens(s, s.calls[c], order);
      if s.calls[c].Authorizing? {
        run := [AuthorizeFinish(c)];
        hide Exec;
        ExecOne(s, AuthorizeFinish(c));
        FinishUnpays(s, c, order);
        assert Step(s, AuthorizeFinish(c)) == DoAuthorizeFinish(s, c);
      } else {
        run := PushToTheEnd(s, c, order);
      }
    }
  }

  /** And one that is not exposed cannot. */
  lemma {:induction false} SettledStaysPaid(s: State, run: seq<Action>, order: Id)
    requires Inv(s) && Payable(s, order) && Settled(s, order, RefundsOf(s, order))
    ensures !Unpaid(Exec(s, run), order)
    decreases run
  {
    hide Inv, Step;
    if run != [] {
      hide Exposed;
      StepKeeps(s, run[0]);
      StepSettled(s, run[0], order);
      StepGrows(s, run[0]);
      var p :| PaymentMatches(s, order, p);
      assert PaymentMatches(Step(s, run[0]), order, p);
      SettledStaysPaid(Step(s, run[0]), run[1..], order);
    }
  }

  /**
   Exactly when a paid order can still leave `paid`: after any run that has sold an order, some
   continuation ends with the order not paid if and only if the order is exposed.
   */
  lemma UnpaidPossibleIffExposed(run: seq<Action>, order: Id)
    requires SalesOf(Exec(START, run).sales, order) == 1
    ensures
      var s := Exec(START, run);
      Exposed(s, order) <==> exists later :: Unpaid(Exec(s, later), order)
  {
    hide Inv, Step, Exec, SalesOf, Exposed, Payable;
    var s := Exec(START, run);
    ReachableFacts(run, order);
    if Exposed(s, order) {
      var later := ExposedToUnpaid(s, order);
    } else {
      forall later ensures !Unpaid(Exec(s, later), order) {
        SettledStaysPaid(s, later, order);
      }
    }
  }

  lemma ReachableFacts(run: seq<Action>, order: Id)
    requires Fulfilled(Exec(START, run).sales, order)
    ensures
      var s := Exec(START, run);
      Inv(s) && Payable(s, order) && order in s.orders
  {
    hide Inv, Step, Exec, Fulfilled, Payable, FulfilledHavePayments;
    RunOk(run);
    StartOk();
    NoPaymentsNeededYet();
    ExecKeepsPayable(START, run);
    PayableNow(Exec(START, run), order);
    FulfilledOrderKnown(Exec(START, run), order);
  }

  // ---- a captured payment whose order is not paid ----

  ghost predicate IsCaptured(s: State, order: Id) {
    exists p :: p in s.payments && s.payments[p].order == order && s.payments[p].status == Captured
  }

  ghost predicate CapturedUnpaid(s: State, order: Id) {
    IsCaptured(s, order) && Unpaid(s, order)
  }

  /** A call whose next statement overwrites the order's status and leaves the payment alone. */
  predicate Closes(c: Call, order: Id) {
    c == Authorizing(order, true) || (c.Confirming? && c.order == order && c.stage == RefundNoted)
  }

  predicate WillCapture(c: Call, order: Id) {
    c.Confirming? && c.order == order && c.stage == Committed
  }

  /**
   Either the capture is still to come and the order is exposed; or the payment is captured, and
   the order's status is already something else or about to be overwritten by a call that does not
   pass through the payment again.
   */
  ghost predicate CaptureAtRisk(s: State, order: Id) {
    || (Exposed(s, order) && exists c :: c in s.calls && WillCapture(s.calls[c], order))
    || (IsCaptured(s, order) && (Unpaid(s, order) || exists c :: c in s.calls && Closes(s.calls[c], order)))
  }

  /** No capture is to come, and if there was one nothing is about to overwrite the status alone. */
  ghost predicate Contained(s: State, order: Id) {
    && order in s.orders
    && (forall c | c in s.calls :: !WillCapture(s.calls[c], order))
    && (IsCaptured(s, order) ==>
          s.orders[order].status == Paid && forall c | c in s.calls :: !Closes(s.calls[c], order))
  }

  lemma CreateStartContained(s: State, tenant: Id, user: Id, key: string, wants: seq<Want>, order: Id)
    requires Contained(s, order)
    ensures Contained(DoCreateStart(s, tenant, user, key, wants), order)
  {
    hide KeyTaken;
  }

  lemma CreateReadContained(s: State, call: nat, price: Money, order: Id)
    requires Contained(s, order)
    ensures Contained(DoCreateRead(s, call, price), order)
  {
    hide Carries, LapsedAt;
  }

  lemma CreateCommitContained(s: State, call: nat, id: Id, order: Id)
    requires Contained(s, order)
    ensures Contained(DoCreateCommit(s, call, id), order)
  {
    hide KeyTaken, Admissible;
  }

  lemma AuthorizeStartContained(s: State, tenant: Id, id: Id, order: Id)
    requires Contained(s, order)
    ensures Contained(DoAuthorizeStart(s, tenant, id), order)
  {
  }

  /** The order has its payment, so no second one is recorded. */
  lemma AuthorizeRecordContained(s: State, call: nat, payment: Id, order: Id)
    requires KeysOk(s.orders, s.payments) && Payable(s, order) && Contained(s, order)
    ensures Contained(DoAuthorizeRecord(s, call, payment), order)
  {
    var p :| PaymentMatches(s, order, p);
    assert PaymentKeyTaken(s, s.orders[order].tenant, s.orders[order].key);
    var t := DoAuthorizeRecord(s, call, payment);
    assert IsCaptured(t, order) ==> IsCaptured(s, order);
  }

  lemma AuthorizeFinishContained(s: State, call: nat, order: Id)
    requires Contained(s, order)
    ensures Contained(DoAuthorizeFinish(s, call), order)
  {
    var t := DoAuthorizeFinish(s, call);
    assert IsCaptured(t, order) ==> IsCaptured(s, order);
  }

  lemma ConfirmStartContained(s: State, tenant: Id, id: Id, payment: Id, order: Id)
    requires Contained(s, order)
    ensures Contained(DoConfirmStart(s, tenant, id, payment), order)
  {
  }

  lemma ConfirmLoadContained(s: State, call: nat, order: Id)
    requires Contained(s, order)
    ensures Contained(DoConfirmLoad(s, call), order)
  {
  }

  lemma ConfirmSellContained(s: State, call: nat, order: Id)
    requires Contained(s, order)
    ensures Contained(DoConfirmSell(s, call), order)
  {
    hide Carries;
  }

  /** The units of a fulfilled order are gone, so no second transaction of it is ever ready. */
  lemma NoSecondCommit(s: State, call: nat, order: Id)
    requires Inv(s) && Fulfilled(s.sales, order) && ReadyToCommit(s, call)
    ensures s.calls[call].order != order
  {
    hide RowsOk, LedgerAgrees, OutboxOk, KeysOk, FailedOk, CallsOk, SalesOk, LocksOk, Fulfilled;
    CommitIsAtomic(s, call);
    var items := s.orders[s.calls[call].order].items;
    assert items[0] in items;
    if s.calls[call].order == order {
      FulfilledUnitsGone(s, order, items[0]);
    }
  }

  lemma ConfirmCommitContained(s: State, call: nat, order: Id)
    requires Inv(s) && Fulfilled(s.sales, order) && Contained(s, order)
    ensures Contained(DoConfirmCommit(s, call), order)
  {
    hide Inv, Fulfilled, SellAll, RowList;
    if ReadyToCommit(s, call) {
      NoSecondCommit(s, call, order);
      assert IsCaptured(DoConfirmCommit(s, call), order) ==> IsCaptured(s, order);
    }
  }

  /** A confirmation of another order captures another order's payment. */
  lemma ConfirmCaptureContained(s: State, call: nat, order: Id)
    requires CallsOk(s.calls, s.nextCall, s.orders, s.payments, s.failed, s.issued) && Contained(s, order)
    ensures Contained(DoConfirmCapture(s, call), order)
  {
    hide ItemsKnown;
    var t := DoConfirmCapture(s, call);
    if AtStage(s, call, Committed) {
      assert CallOk(s.calls[call], s.orders, s.payments, s.failed, s.issued);
      assert IsCaptured(t, order) ==> IsCaptured(s, order);
    }
  }

  lemma RefundSendContained(s: State, call: nat, order: Id)
    requires Contained(s, order)
    ensures Contained(DoRefundSend(s, call), order)
  {
  }

  /** The note takes the payment out of `captured`: an order has only one. */
  lemma RefundNoteContained(s: State, call: nat, order: Id)
    requires CallsOk(s.calls, s.nextCall, s.orders, s.payments, s.failed, s.issued) && KeysOk(s.orders, s.payments)
    requires Contained(s, order)
    ensures Contained(DoRefundNote(s, call), order)
  {
    hide ItemsKnown;
    var t := DoRefundNote(s, call);
    if AtStage(s, call, RefundSent) {
      assert CallOk(s.calls[call], s.orders, s.payments, s.failed, s.issued);
      assert IsCaptured(t, order) ==> IsCaptured(s, order) && s.calls[call].order != order;
    }
  }

  lemma RefundCloseContained(s: State, call: nat, order: Id)
    requires Contained(s, order)
    ensures Contained(DoRefundClose(s, call), order)
  {
    var t := DoRefundClose(s, call);
    assert IsCaptured(t, order) ==> IsCaptured(s, order);
  }

  lemma QuietContained(s: State, a: Action, order: Id)
    requires a.Tick? || a.CreateUnit? || a.HoldUnit? || a.ReleaseUnit? || a.SellUnit? || a.Withdraw? || a.Crash? || a.Dispatch?
    requires Contained(s, order)
    ensures Contained(Step(s, a), order)
  {
    hide DoCreateStart, DoCreateRead, DoCreateCommit, DoAuthorizeStart, DoAuthorizeRecord, DoAuthorizeFinish,
      DoConfirmStart, DoConfirmLoad, DoConfirmSell, DoConfirmCommit, DoConfirmCapture, DoRefundSend, DoRefundNote,
      DoRefundClose, Insert, Hold, Release, VoidUnit, ConfirmSale;
  }

  lemma StepContained(s: State, a: Action, order: Id)
    requires Inv(s) && Fulfilled(s.sales, order) && Payable(s, order) && Contained(s, order)
    ensures Contained(Step(s, a), order)
  {
    hide RowsOk, LedgerAgrees, OutboxOk, OrdersOk, CallsOk, KeysOk, LocksOk, SalesOk, FailedOk, Fulfilled, Contained,
      Payable, DoHold, DoRelease, DoSellUnit, DoVoid, DoCreateStart, DoCreateRead, DoCreateCommit, DoAuthorizeStart,
      DoAuthorizeRecord, DoAuthorizeFinish, DoConfirmStart, DoConfirmLoad, DoConfirmSell, DoConfirmCommit,
      DoConfirmCapture, DoRefundSend, DoRefundNote, DoRefundClose, DoCrash, DoDispatch, Insert;
    match a
    case CreateStart(tenant, user, key, wants) => CreateStartContained(s, tenant, user, key, wants, order);
    case CreateRead(call, price) => CreateReadContained(s, call, price, order);
    case CreateCommit(call, id) => CreateCommitContained(s, call, id, order);
    case AuthorizeStart(tenant, id) => AuthorizeStartContained(s, tenant, id, order);
    case AuthorizeRecord(call, payment) => AuthorizeRecordContained(s, call, payment, order);
    case AuthorizeFinish(call) => AuthorizeFinishContained(s, call, order);
    case ConfirmStart(tenant, id, payment) => ConfirmStartContained(s, tenant, id, payment, order);
    case ConfirmLoad(call) => ConfirmLoadContained(s, call, order);
    case ConfirmSell(call) => ConfirmSellContained(s, call, order);
    case ConfirmCommit(call) => ConfirmCommitContained(s, call, order);
    case ConfirmCapture(call) => ConfirmCaptureContained(s, call, order);
    case RefundSend(call) => RefundSendContained(s, call, order);
    case RefundNote(call) => RefundNoteContained(s, call, order);
    case RefundClose(call) => RefundCloseContained(s, call, order);
    case _ => QuietContained(s, a, order);
  }

  lemma {:induction false} ExecContained(s: State, run: seq<Action>, order: Id)
    requires Inv(s) && Fulfilled(s.sales, order) && Payable(s, order) && Contained(s, order)
    ensures !CapturedUnpaid(Exec(s, run), order)
    decreases run
  {
    hide Inv, Step, Fulfilled;
    if run != [] {
      hide Contained;
      StepKeeps(s, run[0]);
      StepContained(s, run[0], order);
      StepKeepsFulfilled(s, run[0], order);
      StepGrows(s, run[0]);
      var p :| PaymentMatches(s, order, p);
      assert PaymentMatches(Step(s, run[0]), order, p);
      ExecContained(Step(s, run[0]), run[1..], order);
    }
  }

  // ---- and when it is at risk, it happens ----

  lemma CloseStrands(s: State, c: nat, order: Id) returns (run: seq<Action>)
    requires c in s.calls && Closes(s.calls[c], order) && IsCaptured(s, order) && order in s.orders
    ensures CapturedUnpaid(Exec(s, run), order)
  {
    hide Exec;
    var a := if s.calls[c].Authorizing? then AuthorizeFinish(c) else RefundClose(c);
    run := [a];
    ExecOne(s, a);
    var p :| p in s.payments && s.payments[p].order == order && s.payments[p].status == Captured;
    var t := if s.calls[c].Authorizing? then DoAuthorizeFinish(s, c) else DoRefundClose(s, c);
    assert Step(s, a) == t;
    assert t.payments == s.payments && Unpaid(t, order);
  }

  lemma CaptureStrands(s: State, c: nat, order: Id)
    requires CallsOk(s.calls, s.nextCall, s.orders, s.payments, s.failed, s.issued)
    requires c in s.calls && WillCapture(s.calls[c], order) && Unpaid(s, order)
    ensures CapturedUnpaid(DoConfirmCapture(s, c), order)
  {
    hide ItemsKnown;
    assert CallOk(s.calls[c], s.orders, s.payments, s.failed, s.issued);
    var t := DoConfirmCapture(s, c);
    var p := s.calls[c].payment;
    assert p in t.payments && t.payments[p].order == order && t.payments[p].status == Captured;
  }

  /** First the status is overwritten, then the payment is captured. */
  lemma LateCapture(s: State, c: nat, order: Id) returns (run: seq<Action>)
    requires Inv(s) && Fulfilled(s.sales, order) && Exposed(s, order)
    requires c in s.calls && WillCapture(s.calls[c], order)
    ensures CapturedUnpaid(Exec(s, run), order)
  {
    hide RowsOk, LedgerAgrees, OutboxOk, OrdersOk, CallsOk, KeysOk, LocksOk, SalesOk, FailedOk, Fulfilled, Exposed,
      Step, Exec, DoConfirmCapture, CapturedUnpaid;
    var first := ExposedToUnpaid(s, order);
    var t := Exec(s, first);
    ExecKeeps(s, first);
    run := first + [ConfirmCapture(c)];
    ExecConcat(s, first, [ConfirmCapture(c)]);
    assert AtStage(s, c, Committed);
    CaptureStrands(t, c, order);
    RunsCapture(t, c);
  }

  lemma RunsCapture(s: State, c: nat)
    ensures Exec(s, [ConfirmCapture(c)]) == DoConfirmCapture(s, c)
  {
    hide Exec, DoConfirmCapture;
    ExecOne(s, ConfirmCapture(c));
    assert Step(s, ConfirmCapture(c)) == DoConfirmCapture(s, c);
  }

  lemma AtRiskHappens(s: State, order: Id) returns (run: seq<Action>)
    requires Inv(s) && Fulfilled(s.sales, order) && order in s.orders && CaptureAtRisk(s, order)
    ensures CapturedUnpaid(Exec(s, run), order)
  {
    hide Inv, Step, Fulfilled, Exposed;
    if CapturedUnpaid(s, order) {
      run := [];
    } else if c :| IsCaptured(s, order) && c in s.calls && Closes(s.calls[c], order) {
      run := CloseStrands(s, c, order);
    } else {
      var c :| c in s.calls && WillCapture(s.calls[c], order);
      run := LateCapture(s, c, order);
    }
  }

  /**
   Exactly when a captured payment can end up with an order that is not paid: after any run that
   has sold an order, some continuation does so if and only if the capture is at risk.
   */
  lemma CapturedUnpaidPossibleIffAtRisk(run: seq<Action>, order: Id)
    requires SalesOf(Exec(START, run).sales, order) == 1
    ensures
      var s := Exec(START, run);
      CaptureAtRisk(s, order) <==> exists later :: CapturedUnpaid(Exec(s, later), order)
  {
    hide Inv, Step, Exec, SalesOf, Payable, Exposed;
    var s := Exec(START, run);
    ReachableFacts(run, order);
    if CaptureAtRisk(s, order) {
      var later := AtRiskHappens(s, order);
    } else if !Exposed(s, order) {
      forall later ensures !CapturedUnpaid(Exec(s, later), order) { SettledStaysPaid(s, later, order); }
    } else {
      forall later ensures !CapturedUnpaid(Exec(s, later), order) { ExecContained(s, later, order); }
    }
  }

  /** Where calls on one order do not overlap, a fulfilled order's capture is never at risk. */
  lemma AloneIsNeverAtRisk(run: seq<Action>, order: Id)
    requires AloneRun(START, run)
    requires SalesOf(Exec(START, run).sales, order) == 1
    ensures !CaptureAtRisk(Exec(START, run), order)
  {
    hide Inv, Step, Exec, SalesOf;
    StartOk();
    ReachableFacts(run, order);
    ExecMoney(START, run);
  }

  // ---- what no overlap can break ----

  /** A status `paid`, a captured payment and a confirmation past its commit each have their sale. */
  ghost predicate SaleBehind(s: State) {
    && (forall o | o in s.orders && s.orders[o].status == Paid :: Fulfilled(s.sales, o))
    && (forall p | p in s.payments && s.payments[p].status == Captured :: Fulfilled(s.sales, s.payments[p].order))
    && (forall c | c in s.calls && s.calls[c].Confirming? && s.calls[c].stage == Committed :: Fulfilled(s.sales, s.calls[c].order))
  }

  /** Neither a status `paid`, nor `captured`, nor a committed confirmation appears. */
  ghost predicate NothingPaid(s: State, t: State) {
    && t.sales == s.sales
    && (forall o | o in t.orders && t.orders[o].status == Paid :: o in s.orders && s.orders[o].status == Paid)
    && (forall p | p in t.payments && t.payments[p].status == Captured ::
          p in s.payments && s.payments[p].status == Captured && s.payments[p].order == t.payments[p].order)
    && (forall c | c in t.calls && t.calls[c].Confirming? && t.calls[c].stage == Committed ::
          c in s.calls && s.calls[c] == t.calls[c])
  }

  lemma NothingPaidKeeps(s: State, t: State)
    requires SaleBehind(s) && NothingPaid(s, t)
    ensures SaleBehind(t)
  {
    hide Fulfilled;
  }

  lemma CreateCommitPaysNothing(s: State, call: nat, id: Id)
    ensures NothingPaid(s, DoCreateCommit(s, call, id))
  {
    hide KeyTaken, Admissible;
  }

  lemma AuthorizeRecordPaysNothing(s: State, call: nat, payment: Id)
    ensures NothingPaid(s, DoAuthorizeRecord(s, call, payment))
  {
    hide PaymentKeyTaken;
  }

  lemma AuthorizeFinishPaysNothing(s: State, call: nat)
    ensures NothingPaid(s, DoAuthorizeFinish(s, call))
  {
  }

  lemma RefundNotePaysNothing(s: State, call: nat)
    ensures NothingPaid(s, DoRefundNote(s, call))
  {
  }

  lemma RefundClosePaysNothing(s: State, call: nat)
    ensures NothingPaid(s, DoRefundClose(s, call))
  {
  }

  /** Only a commit brings a confirmation past its commit. */
  lemma OthersCommitNothing(s: State, a: Action, c: nat)
    requires !WritesBooks(a) && AtStage(Step(s, a), c, Committed)
    ensures c in s.calls && s.calls[c] == Step(s, a).calls[c]
  {
    hide Hold, Release, VoidUnit, ConfirmSale, Insert, SellAll, Carries, KeyTaken, PaymentKeyTaken, PaymentMatches,
      LapsedAt, Extended, RowList, Admissible, DoConfirmCommit, DoConfirmCapture, DoCreateCommit,
      DoAuthorizeRecord, DoAuthorizeFinish, DoRefundNote, DoRefundClose;
  }

  lemma OthersPayNothing(s: State, a: Action)
    requires !WritesBooks(a) && !a.SellUnit?
    ensures NothingPaid(s, Step(s, a))
  {
    hide Hold, Release, VoidUnit, ConfirmSale, Insert, DoCreateStart, DoCreateRead, DoAuthorizeStart, DoConfirmStart,
      DoConfirmLoad, DoConfirmSell, DoRefundSend, DoCrash, DoDispatch, DoConfirmCommit, DoConfirmCapture, DoSellUnit,
      DoCreateCommit, DoAuthorizeRecord, DoAuthorizeFinish, DoRefundNote, DoRefundClose;
    assert SameBooks(s, Step(s, a)) && Step(s, a).sales == s.sales;
    hide Step;
    forall c | AtStage(Step(s, a), c, Committed) ensures c in s.calls && s.calls[c] == Step(s, a).calls[c] {
      OthersCommitNothing(s, a, c);
    }
  }

  lemma CommitHasItsSale(s: State, call: nat)
    requires SaleBehind(s)
    ensures SaleBehind(DoConfirmCommit(s, call))
  {
    hide SalesOf, SellAll, RowList;
    if ReadyToCommit(s, call) {
      var id := s.calls[call].order;
      forall order ensures SalesOf(DoConfirmCommit(s, call).sales, order) == SalesOf(s.sales, order) + if order == id then 1 else 0 {
        SalesOfAppend(s.sales, Sale(Some(id), RowList(s.orders[id].items)), order);
      }
    }
  }

  lemma CaptureHasItsSale(s: State, call: nat)
    requires SaleBehind(s) && CallsOk(s.calls, s.nextCall, s.orders, s.payments, s.failed, s.issued)
    ensures SaleBehind(DoConfirmCapture(s, call))
  {
    hide Fulfilled, ItemsKnown;
    if AtStage(s, call, Committed) {
      assert CallOk(s.calls[call], s.orders, s.payments, s.failed, s.issued);
    }
  }

  lemma SellUnitHasItsSale(s: State, tenant: Id, id: Id, token: Id)
    requires SaleBehind(s)
    ensures SaleBehind(DoSellUnit(s, tenant, id, token))
  {
    hide SalesOf;
    forall order ensures SalesOf(s.sales + [Sale(None, [id])], order) == SalesOf(s.sales, order) {
      SalesOfAppend(s.sales, Sale(None, [id]), order);
    }
  }

  lemma StepHasItsSale(s: State, a: Action)
    requires Inv(s) && SaleBehind(s)
    ensures SaleBehind(Step(s, a))
  {
    hide RowsOk, LedgerAgrees, OutboxOk, OrdersOk, CallsOk, KeysOk, LocksOk, SalesOk, FailedOk, SaleBehind, NothingPaid,
      DoHold, DoRelease, DoSellUnit, DoVoid, DoCreateStart, DoCreateRead, DoCreateCommit, DoAuthorizeStart,
      DoAuthorizeRecord, DoAuthorizeFinish, DoConfirmStart, DoConfirmLoad, DoConfirmSell, DoConfirmCommit,
      DoConfirmCapture, DoRefundSend, DoRefundNote, DoRefundClose, DoCrash, DoDispatch, Insert;
    match a
    case ConfirmCommit(call) => CommitHasItsSale(s, call);
    case ConfirmCapture(call) => CaptureHasItsSale(s, call);
    case SellUnit(tenant, id, token) => SellUnitHasItsSale(s, tenant, id, token);
    case CreateCommit(call, id) =>
      CreateCommitPaysNothing(s, call, id);
      NothingPaidKeeps(s, Step(s, a));
    case AuthorizeRecord(call, payment) =>
      AuthorizeRecordPaysNothing(s, call, payment);
      NothingPaidKeeps(s, Step(s, a));
    case AuthorizeFinish(call) =>
      AuthorizeFinishPaysNothing(s, call);
      NothingPaidKeeps(s, Step(s, a));
    case RefundNote(call) =>
      RefundNotePaysNothing(s, call);
      NothingPaidKeeps(s, Step(s, a));
    case RefundClose(call) =>
      RefundClosePaysNothing(s, call);
      NothingPaidKeeps(s, Step(s, a));
    case _ =>
      OthersPayNothing(s, a);
      NothingPaidKeeps(s, Step(s, a));
  }

  lemma {:induction false} ExecHasItsSale(s: State, run: seq<Action>)
    requires Inv(s) && SaleBehind(s)
    ensures SaleBehind(Exec(s, run))
    decreases run
  {
    hide Inv, Step, SaleBehind;
    if run != [] {
      StepKeeps(s, run[0]);
      StepHasItsSale(s, run[0]);
      ExecHasItsSale(Step(s, run[0]), run[1..]);
    }
  }

  /**
   In every run, overlapping calls included: an order that is paid or has a captured payment was
   sold exactly once, and all its units are sold, or withdrawn since.
   */
  lemma PaidOrCapturedMeansSold(run: seq<Action>, order: Id)
    requires order in Exec(START, run).orders
    requires Exec(START, run).orders[order].status == Paid || IsCaptured(Exec(START, run), order)
    ensures
      var s := Exec(START, run);
      && SalesOf(s.sales, order) == 1
      && forall it | it in s.orders[order].items :: Gone(s.table, it.row)
  {
    hide Step, Exec, SalesOf, RowsOk, LedgerAgrees, OutboxOk, CallsOk, KeysOk, LocksOk, SalesOk, FailedOk;
    var s := Exec(START, run);
    StartOk();
    RunOk(run);
    ExecHasItsSale(START, run);
    AtMostOneSale(s.sales, s.orders, s.table, order);
    forall it | it in s.orders[order].items ensures Gone(s.table, it.row) {
      FulfilledUnitsGone(s, order, it);
    }
  }
}
