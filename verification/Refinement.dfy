/**
 `ConfirmPayment` as code refines the interleaved protocol: whatever the method does to the
 database, with whichever failures, is what some run of the state machine does.
 */
module Refinement {
  import opened Types
  import opened SeatTable
  import opened Purchase
  import opened Guarantees
  import opened Repositories
  import opened ConfirmPayment

  /** The tables of a protocol state, as the repositories see them. */
  function Tables(s: State): Snapshot {
    Snapshot(s.table.rows, s.table.ledger, s.orders, s.payments, s.outbox)
  }

  // ---- a transaction that nobody interferes with ----

  function Loaded(s: State, order: Id, payment: Id): State {
    s.(calls := s.calls[s.nextCall := Confirming(order, payment, Selling(0))], nextCall := s.nextCall + 1)
  }

  function LockedUnits(items: seq<Item>, call: nat): map<Id, nat> {
    map r | r in RowsOf(items) :: call
  }

  /** After k UPDATEs of the transaction that `call` has open. */
  function SellingAt(s: State, call: nat, k: nat): State
    requires call in s.calls && s.calls[call].Confirming? && s.calls[call].order in s.orders
    requires k <= |s.orders[s.calls[call].order].items|
  {
    s.(calls := s.calls[call := s.calls[call].(stage := Selling(k))],
       locks := LockedUnits(s.orders[s.calls[call].order].items[..k], call))
  }

  function Repeat(a: Action, k: nat): seq<Action> {
    if k == 0 then [] else Repeat(a, k - 1) + [a]
  }

  /** One action by name, without unfolding the whole machine. */
  lemma Runs(s: State, call: nat)
    ensures Exec(s, [ConfirmLoad(call)]) == DoConfirmLoad(s, call)
    ensures Exec(s, [ConfirmSell(call)]) == DoConfirmSell(s, call)
    ensures Exec(s, [ConfirmCommit(call)]) == DoConfirmCommit(s, call)
    ensures Exec(s, [ConfirmCapture(call)]) == DoConfirmCapture(s, call)
  {
    hide Exec, DoHold, DoRelease, DoSellUnit, DoVoid, DoCreateStart, DoCreateRead, DoCreateCommit, DoAuthorizeStart,
      DoAuthorizeRecord, DoAuthorizeFinish, DoConfirmStart, DoConfirmLoad, DoConfirmSell, DoConfirmCommit,
      DoConfirmCapture, DoRefundSend, DoRefundNote, DoRefundClose, DoCrash, DoDispatch, Insert;
    ExecOne(s, ConfirmLoad(call));
    ExecOne(s, ConfirmSell(call));
    ExecOne(s, ConfirmCommit(call));
    ExecOne(s, ConfirmCapture(call));
  }

  lemma RefundRuns(s: State, call: nat)
    ensures Exec(s, [RefundSend(call)]) == DoRefundSend(s, call)
    ensures Exec(s, [RefundNote(call)]) == DoRefundNote(s, call)
    ensures Exec(s, [RefundClose(call)]) == DoRefundClose(s, call)
  {
    hide Exec, DoHold, DoRelease, DoSellUnit, DoVoid, DoCreateStart, DoCreateRead, DoCreateCommit, DoAuthorizeStart,
      DoAuthorizeRecord, DoAuthorizeFinish, DoConfirmStart, DoConfirmLoad, DoConfirmSell, DoConfirmCommit,
      DoConfirmCapture, DoRefundSend, DoRefundNote, DoRefundClose, DoCrash, DoDispatch, Insert;
    ExecOne(s, RefundSend(call));
    ExecOne(s, RefundNote(call));
    ExecOne(s, RefundClose(call));
  }

  lemma Start(s: State, tenant: Id, order: Id, payment: Id)
    requires PaymentMatches(s, order, payment) && s.orders[order].tenant == tenant && s.orders[order].status != Paid
    ensures DoConfirmLoad(DoConfirmStart(s, tenant, order, payment), s.nextCall) == Loaded(s, order, payment)
  {
    var t := DoConfirmStart(s, tenant, order, payment);
    assert DoConfirmLoad(t, s.nextCall).calls == Loaded(s, order, payment).calls;
  }

  lemma StartRuns(s: State, tenant: Id, order: Id, payment: Id)
    requires PaymentMatches(s, order, payment) && s.orders[order].tenant == tenant && s.orders[order].status != Paid
    ensures Exec(s, [ConfirmStart(tenant, order, payment)] + [ConfirmLoad(s.nextCall)]) == Loaded(s, order, payment)
  {
    hide Exec, DoConfirmStart, DoConfirmLoad;
    ExecOne(s, ConfirmStart(tenant, order, payment));
    var t := DoConfirmStart(s, tenant, order, payment);
    assert Step(s, ConfirmStart(tenant, order, payment)) == t;
    hide Step;
    ExecConcat(s, [ConfirmStart(tenant, order, payment)], [ConfirmLoad(s.nextCall)]);
    Runs(t, s.nextCall);
    Start(s, tenant, order, payment);
  }

  ghost predicate Opens(s: State, call: nat, tenant: Id, items: seq<Item>) {
    && call in s.calls && s.calls[call].Confirming? && s.calls[call].stage == Selling(0) && s.locks == map[]
    && s.calls[call].order in s.orders && s.orders[s.calls[call].order].items == items
    && s.orders[s.calls[call].order].tenant == tenant
  }

  lemma HeldOneMore(t: Table, tenant: Id, items: seq<Item>, k: nat)
    requires k < |items| && AllHeld(t, tenant, items[..k])
    ensures AllHeld(t, tenant, items[..k + 1]) <==>
      items[k].row !in RowsOf(items[..k]) && Carries(t, tenant, items[k].row, items[k].token)
    ensures RowsOf(items[..k + 1]) == RowsOf(items[..k]) + {items[k].row}
  {
    var front, more := items[..k], items[..k + 1];
    assert more == front + [items[k]];
    assert forall i | 0 <= i < k :: front[i] == more[i] && front[i].row in RowsOf(front);
  }

  lemma LockOneMore(s: State, call: nat, tenant: Id, items: seq<Item>, k: nat)
    requires Opens(s, call, tenant, items) && k < |items|
    requires AllHeld(s.table, tenant, items[..k]) && AllHeld(s.table, tenant, items[..k + 1])
    ensures DoConfirmSell(SellingAt(s, call, k), call) == SellingAt(s, call, k + 1)
  {
    hide AllHeld, Carries;
    HeldOneMore(s.table, tenant, items, k);
    hide RowsOf;
    assert LockedUnits(items[..k + 1], call) == LockedUnits(items[..k], call)[items[k].row := call];
  }

  /** An UPDATE that matches no row, or a row this transaction has already sold, aborts. */
  lemma AbortAt(s: State, call: nat, tenant: Id, items: seq<Item>, k: nat)
    requires Opens(s, call, tenant, items) && k < |items|
    requires AllHeld(s.table, tenant, items[..k]) && !AllHeld(s.table, tenant, items[..k + 1])
    ensures
      var t := DoConfirmSell(SellingAt(s, call, k), call);
      t == s.(calls := s.calls[call := s.calls[call].(stage := Aborted)],
              failed := s.failed + {s.calls[call].order})
  {
    hide AllHeld, Carries, RowsOf;
    HeldOneMore(s.table, tenant, items, k);
    assert Without(LockedUnits(items[..k], call), call) == map[];
  }

  lemma SellingAtNone(s: State, call: nat, tenant: Id, items: seq<Item>)
    requires Opens(s, call, tenant, items)
    ensures SellingAt(s, call, 0) == s
  {
    assert LockedUnits(items[..0], call) == map[];
  }

  lemma {:induction false} SellsInTurn(s: State, call: nat, tenant: Id, items: seq<Item>, k: nat)
    requires Opens(s, call, tenant, items) && k <= |items| && AllHeld(s.table, tenant, items[..k])
    ensures Exec(s, Repeat(ConfirmSell(call), k)) == SellingAt(s, call, k)
  {
    if k == 0 {
      SellingAtNone(s, call, tenant, items);
    } else {
      assert items[..k][..k - 1] == items[..k - 1];
      PrefixAllHeld(s.table, tenant, items[..k], k - 1);
      SellsInTurn(s, call, tenant, items, k - 1);
      hide Exec, Step, DoConfirmSell, AllHeld, LockedUnits, SellingAt;
      ExecConcat(s, Repeat(ConfirmSell(call), k - 1), [ConfirmSell(call)]);
      Runs(SellingAt(s, call, k - 1), call);
      LockOneMore(s, call, tenant, items, k - 1);
    }
  }

  lemma {:induction false} FirstLost(t: Table, tenant: Id, items: seq<Item>, n: nat) returns (k: nat)
    requires n <= |items| && !AllHeld(t, tenant, items[..n])
    ensures k < n && AllHeld(t, tenant, items[..k]) && !AllHeld(t, tenant, items[..k + 1])
    decreases n
  {
    if AllHeld(t, tenant, items[..n - 1]) {
      k := n - 1;
    } else {
      k := FirstLost(t, tenant, items, n - 1);
    }
  }

  // ---- the two ways a confirmation can change the database ----

  /** What a call leaves behind besides the tables: nothing in flight, no lock, and these records. */
  ghost predicate Leaves(s: State, t: State, sales: seq<Sale>, refunds: seq<Id>, failed: set<Id>) {
    && t.calls == s.calls && t.locks == map[]
    && t.sales == s.sales + sales && t.refunds == s.refunds + refunds && t.failed == s.failed + failed
  }

  lemma Commits(s: State, call: nat, tenant: Id, items: seq<Item>)
    requires Opens(s, call, tenant, items)
    ensures
      var t := DoConfirmCommit(SellingAt(s, call, |items|), call);
      && Tables(t) == Confirmed(Tables(s), s.calls[call].order)
      && t.calls == s.calls[call := s.calls[call].(stage := Committed)] && t.locks == map[]
      && t.sales == s.sales + [Sale(Some(s.calls[call].order), RowList(items))]
      && t.refunds == s.refunds && t.failed == s.failed
  {
    hide SellAll, RowsOf;
    assert s.table == Table(s.table.rows, s.table.ledger);
    assert Without(LockedUnits(items[..|items|], call), call) == map[];
  }

  /** The capture, or the failure to record it; either way the call is over. */
  function CaptureTail(call: nat, f: Faults): seq<Action> {
    if f.capture then [Crash(call)] else [ConfirmCapture(call)]
  }

  lemma RunsCrash(s: State, call: nat)
    ensures Exec(s, [Crash(call)]) == DoCrash(s, call)
  {
    hide Exec, DoHold, DoRelease, DoSellUnit, DoVoid, DoCreateStart, DoCreateRead, DoCreateCommit, DoAuthorizeStart,
      DoAuthorizeRecord, DoAuthorizeFinish, DoConfirmStart, DoConfirmLoad, DoConfirmSell, DoConfirmCommit,
      DoConfirmCapture, DoRefundSend, DoRefundNote, DoRefundClose, DoCrash, DoDispatch, Insert;
    ExecOne(s, Crash(call));
  }

  lemma Captures(t: State, call: nat, f: Faults)
    requires AtStage(t, call, Committed) && t.calls[call].payment in t.payments && t.locks == map[]
    ensures
      var u := Exec(t, CaptureTail(call, f));
      && Tables(u) == (if f.capture then Tables(t) else WithPayment(Tables(t), t.calls[call].payment, Captured))
      && u.calls == t.calls - {call} && u.locks == map[]
      && u.sales == t.sales && u.refunds == t.refunds && u.failed == t.failed
  {
    hide Exec, Step;
    RunsCrash(t, call);
    Runs(t, call);
    assert Without(t.locks, call) == map[];
  }

  /** The compensation up to its first failing call; the gateway is asked before anything is written. */
  function RefundTail(call: nat, f: Faults): seq<Action> {
    if f.refund then [Crash(call)]
    else if f.note then [RefundSend(call)] + [Crash(call)]
    else if f.close then [RefundSend(call)] + [RefundNote(call)] + [Crash(call)]
    else [RefundSend(call)] + [RefundNote(call)] + [RefundClose(call)]
  }

  ghost predicate AfterRefund(t: State, u: State, call: nat, b: Snapshot, asked: seq<Id>) {
    && Tables(u) == b && u.calls == t.calls - {call} && u.locks == map[]
    && u.sales == t.sales && u.refunds == t.refunds + asked && u.failed == t.failed
  }

  lemma RefundSteps(t: State, call: nat)
    requires AtStage(t, call, Aborted) && t.locks == map[]
    requires t.calls[call].order in t.orders && t.calls[call].payment in t.payments
    ensures
      var order, payment := t.calls[call].order, t.calls[call].payment;
      var t1 := DoRefundSend(t, call);
      var t2 := DoRefundNote(t1, call);
      var noted := WithPayment(Tables(t), payment, Refunded);
      && AfterRefund(t, DoCrash(t, call), call, Tables(t), [])
      && AfterRefund(t, DoCrash(t1, call), call, Tables(t), [order])
      && AfterRefund(t, DoCrash(t2, call), call, noted, [order])
      && AfterRefund(t, DoRefundClose(t2, call), call, WithOrder(noted, order, Expired), [order])
  {
    assert Without(t.locks, call) == map[];
  }

  lemma Refunds(t: State, call: nat, f: Faults)
    requires AtStage(t, call, Aborted) && t.locks == map[]
    requires t.calls[call].order in t.orders && t.calls[call].payment in t.payments
    ensures
      AfterRefund(t, Exec(t, RefundTail(call, f)), call,
                  Refunding(Tables(t), t.calls[call].order, t.calls[call].payment, f).0,
                  if f.refund then [] else [t.calls[call].order])
  {
    RefundSteps(t, call);
    hide Exec, Step, DoRefundSend, DoRefundNote, DoRefundClose, DoCrash, AfterRefund;
    var a, b, c, x := [RefundSend(call)], [RefundNote(call)], [RefundClose(call)], [Crash(call)];
    var t1 := DoRefundSend(t, call);
    var t2 := DoRefundNote(t1, call);
    RunsCrash(t, call);
    RunsCrash(t1, call);
    RunsCrash(t2, call);
    RefundRuns(t, call);
    RefundRuns(t1, call);
    RefundRuns(t2, call);
    ExecConcat(t, a, x);
    ExecConcat(t, a, b);
    ExecConcat(t, a + b, x);
    ExecConcat(t, a + b, c);
  }

  /** The sale an outcome stands for, if the order was not paid before. */
  function SalesBy(s: State, order: Id, r: Outcome): seq<Sale> {
    if order in s.orders && s.orders[order].status != Paid && (r == Done || r == CaptureFailed)
    then [Sale(Some(order), RowList(s.orders[order].items))] else []
  }

  /** The refund an outcome means the gateway was asked for. */
  function RefundsBy(order: Id, r: Outcome, f: Faults): seq<Id> {
    if r == HoldsLost || (r == RefundFailed && !f.refund) then [order] else []
  }

  function FailedBy(order: Id, r: Outcome): set<Id> {
    if r == HoldsLost || r == RefundFailed then {order} else {}
  }

  /**
   Every effect of the method on an idle database (no transaction holds a row lock) is the effect
   of a run, for every input and every failure: the same tables; exactly the sale, the refund
   request and the failed confirmation that the outcome reported stands for; nothing left in flight
   and no lock.
   */
  lemma ConfirmIsARun(s: State, tenant: Id, order: Id, payment: Id, f: Faults) returns (run: seq<Action>)
    requires s.locks == map[] && s.nextCall !in s.calls
    ensures
      var (tables, r) := Effect(Tables(s), tenant, order, payment, f);
      && Tables(Exec(s, run)) == tables
      && Leaves(s, Exec(s, run), SalesBy(s, order, r), RefundsBy(order, r, f), FailedBy(order, r))
  {
    hide AllHeld, SellAll;
    run := [];
    if f.read > 2 && PaymentMatches(s, order, payment) && s.orders[order].tenant == tenant && s.orders[order].status != Paid {
      if LosesHolds(Tables(s), order, f) {
        hide Exec;
        run := LosingRun(s, tenant, order, payment, f);
      } else if f.statement > |s.orders[order].items| + 2 {
        hide Exec;
        run := SellingRun(s, tenant, order, payment, f);
      }
    }
  }

  lemma SellingRun(s: State, tenant: Id, order: Id, payment: Id, f: Faults) returns (run: seq<Action>)
    requires s.locks == map[] && s.nextCall !in s.calls && PaymentMatches(s, order, payment)
    requires s.orders[order].tenant == tenant && s.orders[order].status != Paid
    requires !LosesHolds(Tables(s), order, f) && f.statement > |s.orders[order].items| + 2
    ensures Tables(Exec(s, run))
         == if f.capture then Confirmed(Tables(s), order) else WithPayment(Confirmed(Tables(s), order), payment, Captured)
    ensures Leaves(s, Exec(s, run), [Sale(Some(order), RowList(s.orders[order].items))], [], {})
  {
    hide Exec, Step, SellAll;
    var call, items := s.nextCall, s.orders[order].items;
    var start := [ConfirmStart(tenant, order, payment)] + [ConfirmLoad(call)];
    var sells, commit, tail := Repeat(ConfirmSell(call), |items|), [ConfirmCommit(call)], CaptureTail(call, f);
    run := start + sells + commit + tail;
    ExecConcat(s, start + sells + commit, tail);
    ExecConcat(s, start + sells, commit);
    ExecConcat(s, start, sells);
    StartRuns(s, tenant, order, payment);
    var u := Loaded(s, order, payment);
    assert items[..Min(f.statement, |items|)] == items && items[..|items|] == items;
    assert s.table == Table(s.table.rows, s.table.ledger);
    SellsInTurn(u, call, tenant, items, |items|);
    Runs(SellingAt(u, call, |items|), call);
    Commits(u, call, tenant, items);
    Captures(DoConfirmCommit(SellingAt(u, call, |items|), call), call, f);
    CallsRestored(s, Confirming(order, payment, Committed));
  }

  lemma CallsRestored(s: State, c: Call)
    requires s.nextCall !in s.calls
    ensures s.calls[s.nextCall := c] - {s.nextCall} == s.calls
  {
  }

  lemma LosingRun(s: State, tenant: Id, order: Id, payment: Id, f: Faults) returns (run: seq<Action>)
    requires s.locks == map[] && s.nextCall !in s.calls && PaymentMatches(s, order, payment)
    requires s.orders[order].tenant == tenant && s.orders[order].status != Paid
    requires LosesHolds(Tables(s), order, f)
    ensures Tables(Exec(s, run)) == Refunding(Tables(s), order, payment, f).0
    ensures Leaves(s, Exec(s, run), [], if f.refund then [] else [order], {order})
  {
    hide Exec, Step, AllHeld;
    var call, items := s.nextCall, s.orders[order].items;
    assert s.table == Table(s.table.rows, s.table.ledger);
    var k := FirstLost(s.table, tenant, items, Min(f.statement, |items|));
    var start := [ConfirmStart(tenant, order, payment)] + [ConfirmLoad(call)];
    var sells, abort, tail := Repeat(ConfirmSell(call), k), [ConfirmSell(call)], RefundTail(call, f);
    run := start + sells + abort + tail;
    ExecConcat(s, start + sells + abort, tail);
    ExecConcat(s, start + sells, abort);
    ExecConcat(s, start, sells);
    StartRuns(s, tenant, order, payment);
    var u := Loaded(s, order, payment);
    SellsInTurn(u, call, tenant, items, k);
    Runs(SellingAt(u, call, k), call);
    AbortAt(u, call, tenant, items, k);
    Refunds(DoConfirmSell(SellingAt(u, call, k), call), call, f);
    CallsRestored(s, Confirming(order, payment, Aborted));
  }

  // ---- BulkCreate ----

  function Inserts(units: seq<NewUnit>): seq<Action> {
    seq(|units|, k requires 0 <= k < |units| =>
      CreateUnit(units[k].id, units[k].tenant, units[k].event, units[k].category, units[k].seat))
  }

  /** A batch that goes in is a run of single inserts. */
  lemma {:induction false} BulkCreateIsARun(s: State, units: seq<NewUnit>)
    requires InsertAll(s.table, units).Some?
    ensures Exec(s, Inserts(units)) == s.(table := InsertAll(s.table, units).value)
    decreases units
  {
    if units != [] {
      var k := |units| - 1;
      var u := units[k];
      var a := CreateUnit(u.id, u.tenant, u.event, u.category, u.seat);
      assert Inserts(units) == Inserts(units[..k]) + [a];
      BulkCreateIsARun(s, units[..k]);
      hide Exec;
      ExecConcat(s, Inserts(units[..k]), [a]);
      ExecOne(Exec(s, Inserts(units[..k])), a);
    }
  }
}
