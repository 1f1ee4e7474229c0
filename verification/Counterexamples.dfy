/**
 Two deliveries of one webhook that overlap: runs in which an order that was paid, captured and
 sold is refunded, leaves `paid`, or ends captured and not paid. And two first calls of one
 idempotency key that overlap: the second gets a conflict.
 */
module Counterexamples {
  import opened Types
  import opened SeatTable
  import opened Purchase
  import opened Invariants
  import opened Guarantees
  import opened Overlap
  import opened PaidAndCaptured

  const ITEM := Item(1, 7, Money(500, "KES"))
  const ORDER := Order(0, 3, "k", Pending, [ITEM], Money(500, "KES"), Some(300))
  const PAYMENT := Payment(0, 5, "k", PaymentPending, Money(500, "KES"))

  /** One unit held and ordered, its payment authorized, and two deliveries of one webhook. */
  const HOLDING: seq<Action> := [CreateUnit(1, 0, 0, 0, None), HoldUnit(0, 1, 7, 3, 300)]
  const ORDERING: seq<Action> := [
    CreateStart(0, 3, "k", [Want(1, 7)]), CreateRead(0, Money(500, "KES")), CreateCommit(0, 5)]
  const AUTHORIZING: seq<Action> := [AuthorizeStart(0, 5), AuthorizeRecord(1, 9), AuthorizeFinish(1)]
  const CHECKING: seq<Action> := [ConfirmStart(0, 5, 9), ConfirmStart(0, 5, 9), ConfirmLoad(2)]
  const SELLING: seq<Action> := [ConfirmSell(2), ConfirmCommit(2), ConfirmCapture(2)]

  lemma AfterHolding()
    ensures
      var s := Exec(START, HOLDING);
      && s == START.(table := s.table, issued := map[7 := Issue(1, 300, 3)])
      && s.table.rows == map[1 := Row(0, 0, 0, None, Held, Some(7), Some(3), Some(300))]
  {
    hide DoCreateStart, DoCreateRead, DoCreateCommit, DoAuthorizeStart, DoAuthorizeRecord, DoAuthorizeFinish,
      DoConfirmStart, DoConfirmLoad, DoConfirmSell, DoConfirmCommit, DoConfirmCapture, DoRefundSend, DoRefundNote,
      DoRefundClose, DoCrash, DoDispatch;
    var s1 := Step(START, HOLDING[0]);
    assert Exec(START, HOLDING) == Exec(s1, [HOLDING[1]]);
    ExecOne(s1, HOLDING[1]);
  }

  lemma ExecThree(s: State, a: Action, b: Action, c: Action)
    ensures Exec(s, [a, b, c]) == Step(Step(Step(s, a), b), c)
  {
    hide Step;
    assert [a, b, c] == [a] + ([b] + [c]);
    ExecConcat(s, [a], [b] + [c]);
    ExecConcat(Step(s, a), [b], [c]);
    ExecOne(s, a);
    ExecOne(Step(s, a), b);
    ExecOne(Step(Step(s, a), b), c);
  }

  lemma OrderingRuns(s: State)
    ensures Exec(s, ORDERING) == DoCreateCommit(DoCreateRead(DoCreateStart(s, 0, 3, "k", [Want(1, 7)]), 0, Money(500, "KES")), 0, 5)
  {
    hide Exec, DoHold, DoRelease, DoSellUnit, DoVoid, DoCreateStart, DoCreateRead, DoCreateCommit, DoAuthorizeStart,
      DoAuthorizeRecord, DoAuthorizeFinish, DoConfirmStart, DoConfirmLoad, DoConfirmSell, DoConfirmCommit,
      DoConfirmCapture, DoRefundSend, DoRefundNote, DoRefundClose, DoCrash, DoDispatch, Insert;
    ExecThree(s, ORDERING[0], ORDERING[1], ORDERING[2]);
  }

  const STARTED := Creating(0, 3, "k", [Want(1, 7)], [], Money(0, ""), None)
  const COMPLETE := Creating(0, 3, "k", [Want(1, 7)], [ITEM], Money(500, "KES"), Some(300))

  lemma OrderStarts(s: State)
    requires s.calls == map[] && s.nextCall == 0 && s.orders == map[]
    ensures DoCreateStart(s, 0, 3, "k", [Want(1, 7)]) == s.(calls := map[0 := STARTED], nextCall := 1)
  {
    assert !KeyTaken(s, 0, "k");
  }

  lemma OrderReads(s: State)
    requires s.now == 0 && s.calls == map[0 := STARTED]
    requires s.table.rows == map[1 := Row(0, 0, 0, None, Held, Some(7), Some(3), Some(300))]
    ensures DoCreateRead(s, 0, Money(500, "KES")) == s.(calls := map[0 := COMPLETE])
  {
    assert [] + [ITEM] == [ITEM];
    assert Extended(STARTED, Some(300), Money(500, "KES")) == Some(COMPLETE);
    hide Extended;
    assert map[0 := STARTED][0 := COMPLETE] == map[0 := COMPLETE];
  }

  lemma OrderCommits(s: State)
    requires s.calls == map[0 := COMPLETE] && s.orders == map[]
    ensures DoCreateCommit(s, 0, 5) == s.(calls := map[], orders := map[5 := ORDER])
  {
    assert !KeyTaken(s, 0, "k");
    assert map[0 := COMPLETE] - {0} == map[];
  }

  lemma AfterOrdering(s: State)
    requires s.now == 0 && s.calls == map[] && s.nextCall == 0 && s.orders == map[]
    requires s.table.rows == map[1 := Row(0, 0, 0, None, Held, Some(7), Some(3), Some(300))]
    ensures Exec(s, ORDERING) == s.(orders := map[5 := ORDER], nextCall := 1)
  {
    hide Exec, Step, DoCreateStart, DoCreateRead, DoCreateCommit;
    OrderingRuns(s);
    OrderStarts(s);
    OrderReads(s.(calls := map[0 := STARTED], nextCall := 1));
    OrderCommits(s.(calls := map[0 := COMPLETE], nextCall := 1));
  }

  lemma AuthorizingRuns(s: State)
    ensures Exec(s, AUTHORIZING) == DoAuthorizeFinish(DoAuthorizeRecord(DoAuthorizeStart(s, 0, 5), 1, 9), 1)
  {
    hide Exec, DoHold, DoRelease, DoSellUnit, DoVoid, DoCreateStart, DoCreateRead, DoCreateCommit, DoAuthorizeStart,
      DoAuthorizeRecord, DoAuthorizeFinish, DoConfirmStart, DoConfirmLoad, DoConfirmSell, DoConfirmCommit,
      DoConfirmCapture, DoRefundSend, DoRefundNote, DoRefundClose, DoCrash, DoDispatch, Insert;
    ExecThree(s, AUTHORIZING[0], AUTHORIZING[1], AUTHORIZING[2]);
  }

  lemma PaymentStarts(s: State)
    requires s.calls == map[] && s.nextCall == 1 && s.orders == map[5 := ORDER]
    ensures DoAuthorizeStart(s, 0, 5) == s.(calls := map[1 := Authorizing(5, false)], nextCall := 2)
  {
  }

  lemma PaymentIsRecorded(s: State)
    requires s.calls == map[1 := Authorizing(5, false)] && s.orders == map[5 := ORDER] && s.payments == map[]
    ensures DoAuthorizeRecord(s, 1, 9) == s.(calls := map[1 := Authorizing(5, true)], payments := map[9 := PAYMENT])
  {
    assert !PaymentKeyTaken(s, 0, "k");
    assert map[1 := Authorizing(5, false)][1 := Authorizing(5, true)] == map[1 := Authorizing(5, true)];
  }

  lemma PaymentIsAwaited(s: State)
    requires s.calls == map[1 := Authorizing(5, true)] && s.orders == map[5 := ORDER]
    ensures DoAuthorizeFinish(s, 1) == s.(calls := map[], orders := map[5 := ORDER.(status := AwaitingPayment)])
  {
    assert map[1 := Authorizing(5, true)] - {1} == map[];
    assert map[5 := ORDER][5 := ORDER.(status := AwaitingPayment)] == map[5 := ORDER.(status := AwaitingPayment)];
  }

  lemma AfterAuthorizing(s: State)
    requires s.calls == map[] && s.nextCall == 1 && s.orders == map[5 := ORDER] && s.payments == map[]
    ensures Exec(s, AUTHORIZING)
         == s.(orders := map[5 := ORDER.(status := AwaitingPayment)], payments := map[9 := PAYMENT], nextCall := 2)
  {
    hide Exec, Step, DoAuthorizeStart, DoAuthorizeRecord, DoAuthorizeFinish;
    AuthorizingRuns(s);
    PaymentStarts(s);
    var s1 := s.(calls := map[1 := Authorizing(5, false)], nextCall := 2);
    PaymentIsRecorded(s1);
    PaymentIsAwaited(s1.(calls := map[1 := Authorizing(5, true)], payments := map[9 := PAYMENT]));
  }

  lemma CheckingRuns(s: State)
    ensures Exec(s, CHECKING) == DoConfirmLoad(DoConfirmStart(DoConfirmStart(s, 0, 5, 9), 0, 5, 9), 2)
  {
    hide Exec, DoHold, DoRelease, DoSellUnit, DoVoid, DoCreateStart, DoCreateRead, DoCreateCommit, DoAuthorizeStart,
      DoAuthorizeRecord, DoAuthorizeFinish, DoConfirmStart, DoConfirmLoad, DoConfirmSell, DoConfirmCommit,
      DoConfirmCapture, DoRefundSend, DoRefundNote, DoRefundClose, DoCrash, DoDispatch, Insert;
    ExecThree(s, CHECKING[0], CHECKING[1], CHECKING[2]);
  }

  lemma AfterChecking(s: State)
    requires s.calls == map[] && s.nextCall == 2
    requires s.orders == map[5 := ORDER.(status := AwaitingPayment)] && s.payments == map[9 := PAYMENT]
    ensures Exec(s, CHECKING)
         == s.(calls := map[2 := Confirming(5, 9, Selling(0)), 3 := Confirming(5, 9, Checked)], nextCall := 4)
  {
    hide Exec, Step;
    CheckingRuns(s);
    var s1 := DoConfirmStart(s, 0, 5, 9);
    var s2 := DoConfirmStart(s1, 0, 5, 9);
    var s3 := DoConfirmLoad(s2, 2);
    assert s3.calls == map[2 := Confirming(5, 9, Selling(0)), 3 := Confirming(5, 9, Checked)];
  }

  /** Two confirmations past the status check, one with its transaction open. */
  ghost predicate BothChecked(s: State) {
    && s.calls == map[2 := Confirming(5, 9, Selling(0)), 3 := Confirming(5, 9, Checked)]
    && s.locks == map[] && s.sales == []
    && s.orders == map[5 := ORDER.(status := AwaitingPayment)] && s.payments == map[9 := PAYMENT]
    && s.table.rows == map[1 := Row(0, 0, 0, None, Held, Some(7), Some(3), Some(300))]
  }

  ghost predicate FirstCommitted(s: State) {
    && s.calls == map[2 := Confirming(5, 9, Committed), 3 := Confirming(5, 9, Checked)]
    && s.sales == [Sale(Some(5), [1])]
    && s.orders == map[5 := ORDER.(status := Paid)] && s.payments == map[9 := PAYMENT]
  }

  lemma FirstSells(s: State)
    requires BothChecked(s)
    ensures DoConfirmSell(s, 2) == s.(calls := map[2 := Confirming(5, 9, Selling(1)), 3 := Confirming(5, 9, Checked)], locks := map[1 := 2])
  {
    assert s.calls[2 := Confirming(5, 9, Selling(1))] == map[2 := Confirming(5, 9, Selling(1)), 3 := Confirming(5, 9, Checked)];
  }

  lemma FirstSeals(t: State)
    requires t.calls == map[2 := Confirming(5, 9, Selling(1)), 3 := Confirming(5, 9, Checked)] && t.sales == []
    requires t.orders == map[5 := ORDER.(status := AwaitingPayment)] && t.payments == map[9 := PAYMENT]
    ensures FirstCommitted(DoConfirmCommit(t, 2))
  {
    hide SellAll, Without;
    assert RowList([ITEM]) == [1];
    assert t.calls[2 := Confirming(5, 9, Committed)] == map[2 := Confirming(5, 9, Committed), 3 := Confirming(5, 9, Checked)];
    assert t.orders[5 := ORDER.(status := Paid)] == map[5 := ORDER.(status := Paid)];
    assert [] + [Sale(Some(5), [1])] == [Sale(Some(5), [1])];
  }

  lemma FirstCommits(s: State)
    requires BothChecked(s)
    ensures FirstCommitted(DoConfirmCommit(DoConfirmSell(s, 2), 2))
  {
    hide DoConfirmCommit, DoConfirmSell, FirstCommitted;
    FirstSells(s);
    FirstSeals(DoConfirmSell(s, 2));
  }

  lemma SellingRuns(s: State)
    ensures Exec(s, SELLING) == DoConfirmCapture(DoConfirmCommit(DoConfirmSell(s, 2), 2), 2)
  {
    hide Exec, DoHold, DoRelease, DoSellUnit, DoVoid, DoCreateStart, DoCreateRead, DoCreateCommit, DoAuthorizeStart,
      DoAuthorizeRecord, DoAuthorizeFinish, DoConfirmStart, DoConfirmLoad, DoConfirmSell, DoConfirmCommit,
      DoConfirmCapture, DoRefundSend, DoRefundNote, DoRefundClose, DoCrash, DoDispatch, Insert;
    ExecThree(s, SELLING[0], SELLING[1], SELLING[2]);
  }

  lemma AfterSelling(s: State)
    requires BothChecked(s)
    ensures
      var t := Exec(s, SELLING);
      && t.sales == [Sale(Some(5), [1])]
      && t.orders == map[5 := ORDER.(status := Paid)] && t.payments == map[9 := PAYMENT.(status := Captured)]
      && t.calls == map[3 := Confirming(5, 9, Checked)]
  {
    hide Exec, Step, DoConfirmSell, DoConfirmCommit, DoConfirmCapture;
    SellingRuns(s);
    FirstCommits(s);
    FirstCaptures(DoConfirmCommit(DoConfirmSell(s, 2), 2));
  }

  lemma FirstCaptures(s: State)
    requires FirstCommitted(s)
    ensures
      var t := DoConfirmCapture(s, 2);
      && t.sales == [Sale(Some(5), [1])]
      && t.orders == map[5 := ORDER.(status := Paid)] && t.payments == map[9 := PAYMENT.(status := Captured)]
      && t.calls == map[3 := Confirming(5, 9, Checked)]
  {
  }

  const SETUP: seq<Action> := HOLDING + ORDERING + AUTHORIZING + CHECKING

  lemma AfterSetup()
    ensures BothChecked(Exec(START, SETUP))
  {
    hide Inv, Step, Exec;
    ExecConcat(START, HOLDING + ORDERING + AUTHORIZING, CHECKING);
    ExecConcat(START, HOLDING + ORDERING, AUTHORIZING);
    ExecConcat(START, HOLDING, ORDERING);
    AfterHolding();
    AfterOrdering(Exec(START, HOLDING));
    AfterAuthorizing(Exec(START, HOLDING + ORDERING));
    AfterChecking(Exec(START, HOLDING + ORDERING + AUTHORIZING));
  }

  /** The second confirmation has only passed the status check, and that is enough. */
  lemma SecondDeliveryThreatens(s: State)
    requires 5 in s.orders && s.orders[5].tenant == 0 && 9 in s.payments && s.payments[9].tenant == 0 && s.payments[9].order == 5
    requires 3 in s.calls && s.calls[3] == Confirming(5, 9, Checked) && s.sales == [Sale(Some(5), [1])]
    ensures Exposed(s, 5) && SalesOf(s.sales, 5) == 1 && Payable(s, 5)
  {
    assert PaymentMatches(s, 5, 9);
    assert Threatens(s, s.calls[3], 5);
    SalesOfAppend([], Sale(Some(5), [1]), 5);
  }

  /**
   The promise that a fulfilled order is never refunded is false of the code, and so is the promise
   that a paid order stays paid: after this run the order is paid, its payment captured and its
   unit sold; one continuation refunds it, another takes it out of `paid`.
   */
  lemma FulfilledOrderRefunded() returns (run: seq<Action>, refunding: seq<Action>, closing: seq<Action>)
    ensures
      var s := Exec(START, run);
      && 5 in s.orders && s.orders[5].status == Paid
      && 9 in s.payments && s.payments[9].order == 5 && s.payments[9].status == Captured
      && SalesOf(s.sales, 5) == 1
      && RefundsOf(Exec(START, run + refunding), 5) > RefundsOf(s, 5)
      && Unpaid(Exec(START, run + closing), 5)
  {
    hide Inv, Step, Exec, Exposed;
    run := SETUP + SELLING;
    ExecConcat(START, SETUP, SELLING);
    AfterSetup();
    AfterSelling(Exec(START, SETUP));
    var s := Exec(START, run);
    SecondDeliveryThreatens(s);
    RunOk(run);
    refunding := FromExposed(s, 5);
    closing := ExposedToUnpaid(s, 5);
    ExecConcat(START, run, refunding);
    ExecConcat(START, run, closing);
  }

  const COMMITTING: seq<Action> := [ConfirmSell(2), ConfirmCommit(2)]

  lemma CommittingRuns(s: State)
    ensures Exec(s, COMMITTING) == DoConfirmCommit(DoConfirmSell(s, 2), 2)
  {
    hide Exec, DoHold, DoRelease, DoSellUnit, DoVoid, DoCreateStart, DoCreateRead, DoCreateCommit, DoAuthorizeStart,
      DoAuthorizeRecord, DoAuthorizeFinish, DoConfirmStart, DoConfirmLoad, DoConfirmSell, DoConfirmCommit,
      DoConfirmCapture, DoRefundSend, DoRefundNote, DoRefundClose, DoCrash, DoDispatch, Insert;
    assert COMMITTING == [ConfirmSell(2)] + [ConfirmCommit(2)];
    ExecConcat(s, [ConfirmSell(2)], [ConfirmCommit(2)]);
    ExecOne(s, ConfirmSell(2));
    ExecOne(DoConfirmSell(s, 2), ConfirmCommit(2));
  }

  lemma AfterCommitting(s: State)
    requires BothChecked(s)
    ensures FirstCommitted(Exec(s, COMMITTING))
  {
    hide Exec, Step, DoConfirmSell, DoConfirmCommit;
    CommittingRuns(s);
    FirstCommits(s);
  }

  /**
   The promise that a captured payment has a paid order is false of the code: the first delivery has
   sold and paid the order, the second refunds and closes it, and then the first captures the payment.
   */
  lemma CapturedOrderUnpaid() returns (run: seq<Action>, later: seq<Action>)
    ensures
      var s := Exec(START, run);
      && 5 in s.orders && s.orders[5].status == Paid && SalesOf(s.sales, 5) == 1
      && CapturedUnpaid(Exec(START, run + later), 5)
  {
    hide Inv, Step, Exec, Exposed;
    run := SETUP + COMMITTING;
    ExecConcat(START, SETUP, COMMITTING);
    AfterSetup();
    AfterCommitting(Exec(START, SETUP));
    var s := Exec(START, run);
    SecondDeliveryThreatens(s);
    RunOk(run);
    later := LateCapture(s, 2, 5);
    ExecConcat(START, run, later);
  }

  // ---- a retry that overlaps the first call ----

  const TWO_STARTS: seq<Action> := [CreateStart(0, 3, "k", [Want(1, 7)]), CreateStart(0, 3, "k", [Want(1, 7)]),
    CreateRead(0, Money(500, "KES"))]
  const TWO_COMMITS: seq<Action> := [CreateRead(1, Money(500, "KES")), CreateCommit(0, 5), CreateCommit(1, 6)]

  ghost predicate Creatings(s: State, calls: map<nat, Call>, orders: map<Id, Order>) {
    && s.now == 0 && s.calls == calls && s.nextCall == 2 && s.orders == orders
    && s.table.rows == map[1 := Row(0, 0, 0, None, Held, Some(7), Some(3), Some(300))]
  }

  lemma BothStart(s: State)
    requires s.now == 0 && s.calls == map[] && s.nextCall == 0 && s.orders == map[]
    requires s.table.rows == map[1 := Row(0, 0, 0, None, Held, Some(7), Some(3), Some(300))]
    ensures Creatings(DoCreateStart(DoCreateStart(s, 0, 3, "k", [Want(1, 7)]), 0, 3, "k", [Want(1, 7)]),
                      map[0 := STARTED, 1 := STARTED], map[])
  {
    assert !KeyTaken(s, 0, "k");
  }

  lemma ReadCompletes(s: State, calls: map<nat, Call>, c: nat)
    requires Creatings(s, calls, map[]) && c in calls && calls[c] == STARTED
    ensures Creatings(DoCreateRead(s, c, Money(500, "KES")), calls[c := COMPLETE], map[])
  {
    assert [] + [ITEM] == [ITEM];
    assert Extended(STARTED, Some(300), Money(500, "KES")) == Some(COMPLETE);
  }

  lemma FirstCommitsOrder(s: State)
    requires Creatings(s, map[0 := COMPLETE, 1 := COMPLETE], map[])
    ensures Creatings(DoCreateCommit(s, 0, 5), map[1 := COMPLETE], map[5 := ORDER])
  {
    assert !KeyTaken(s, 0, "k");
    assert map[0 := COMPLETE, 1 := COMPLETE] - {0} == map[1 := COMPLETE];
  }

  lemma SecondIsRefused(s: State)
    requires Creatings(s, map[1 := COMPLETE], map[5 := ORDER])
    ensures Creatings(DoCreateCommit(s, 1, 6), map[], map[5 := ORDER])
  {
    assert KeyTaken(s, 0, "k") by { assert s.orders[5].tenant == 0 && s.orders[5].key == "k"; }
    assert map[1 := COMPLETE] - {1} == map[];
  }

  lemma StartsRun(s: State)
    ensures Exec(s, TWO_STARTS) == DoCreateRead(DoCreateStart(DoCreateStart(s, 0, 3, "k", [Want(1, 7)]), 0, 3, "k", [Want(1, 7)]), 0, Money(500, "KES"))
  {
    hide Exec, DoHold, DoRelease, DoSellUnit, DoVoid, DoCreateStart, DoCreateRead, DoCreateCommit, DoAuthorizeStart,
      DoAuthorizeRecord, DoAuthorizeFinish, DoConfirmStart, DoConfirmLoad, DoConfirmSell, DoConfirmCommit,
      DoConfirmCapture, DoRefundSend, DoRefundNote, DoRefundClose, DoCrash, DoDispatch, Insert;
    ExecThree(s, TWO_STARTS[0], TWO_STARTS[1], TWO_STARTS[2]);
  }

  lemma CommitsRun(s: State)
    ensures Exec(s, TWO_COMMITS) == DoCreateCommit(DoCreateCommit(DoCreateRead(s, 1, Money(500, "KES")), 0, 5), 1, 6)
  {
    hide Exec, DoHold, DoRelease, DoSellUnit, DoVoid, DoCreateStart, DoCreateRead, DoCreateCommit, DoAuthorizeStart,
      DoAuthorizeRecord, DoAuthorizeFinish, DoConfirmStart, DoConfirmLoad, DoConfirmSell, DoConfirmCommit,
      DoConfirmCapture, DoRefundSend, DoRefundNote, DoRefundClose, DoCrash, DoDispatch, Insert;
    ExecThree(s, TWO_COMMITS[0], TWO_COMMITS[1], TWO_COMMITS[2]);
  }

  lemma AfterTwoStarts(s: State)
    requires s.now == 0 && s.calls == map[] && s.nextCall == 0 && s.orders == map[]
    requires s.table.rows == map[1 := Row(0, 0, 0, None, Held, Some(7), Some(3), Some(300))]
    ensures Creatings(Exec(s, TWO_STARTS), map[0 := COMPLETE, 1 := STARTED], map[])
  {
    hide Exec, Step, DoCreateStart, DoCreateRead;
    StartsRun(s);
    BothStart(s);
    ReadCompletes(DoCreateStart(DoCreateStart(s, 0, 3, "k", [Want(1, 7)]), 0, 3, "k", [Want(1, 7)]),
                  map[0 := STARTED, 1 := STARTED], 0);
    assert map[0 := STARTED, 1 := STARTED][0 := COMPLETE] == map[0 := COMPLETE, 1 := STARTED];
  }

  lemma AfterTwoCommits(s: State)
    requires Creatings(s, map[0 := COMPLETE, 1 := STARTED], map[])
    ensures Creatings(Exec(s, TWO_COMMITS), map[], map[5 := ORDER])
  {
    hide Exec, Step, DoCreateRead, DoCreateCommit;
    CommitsRun(s);
    var t := DoCreateRead(s, 1, Money(500, "KES"));
    ReadCompletes(s, map[0 := COMPLETE, 1 := STARTED], 1);
    assert map[0 := COMPLETE, 1 := STARTED][1 := COMPLETE] == map[0 := COMPLETE, 1 := COMPLETE];
    FirstCommitsOrder(t);
    SecondIsRefused(DoCreateCommit(t, 0, 5));
  }

  /**
   The promise that a retry with the same key returns the existing order is false of the code: both
   calls began with the key free and read all they need; the first has its order, and the second is
   over with none.
   */
  lemma RetryGetsConflict()
    ensures
      var s := Exec(START, HOLDING + TWO_STARTS);
      var t := Exec(START, HOLDING + TWO_STARTS + TWO_COMMITS);
      && s.orders == map[] && s.calls == map[0 := COMPLETE, 1 := STARTED]
      && t.orders == map[5 := ORDER] && t.calls == map[]
  {
    hide Step, Exec;
    ExecConcat(START, HOLDING + TWO_STARTS, TWO_COMMITS);
    ExecConcat(START, HOLDING, TWO_STARTS);
    AfterHolding();
    AfterTwoStarts(Exec(START, HOLDING));
    AfterTwoCommits(Exec(START, HOLDING + TWO_STARTS));
  }
}
