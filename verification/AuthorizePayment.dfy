/**
 `AuthorizePayment` as code: the order is read, the gateway is asked for a payment intent outside
 any transaction, the payment row is inserted and the order's status updated, each of which may fail.
 */
module AuthorizePayment {
  import opened Types
  import opened SeatTable
  import opened Purchase
  import opened Guarantees
  import opened Repositories
  import ConfirmPayment
  import Refinement

  /** Which calls fail. */
  datatype Faults = Faults(read: bool, intent: bool, insert: bool, update: bool)

  datatype Outcome =
    | Authorized
    | Unavailable     // the order could not be read
    | NotFound
    | NotPending
    | GatewayFailed
    | Conflict        // the payment's identifier or its key is in use
    | RecordFailed    // the payment row could not be inserted
    | UpdateFailed    // recorded, but the order's status was not updated

  /** What the gateway is asked for. */
  datatype Intent = Intent(amount: Money, key: string, order: Id, tenant: Id)

  predicate PaymentKeyUsed(payments: map<Id, Payment>, tenant: Id, key: string) {
    exists p | p in payments :: payments[p].tenant == tenant && payments[p].key == key
  }

  predicate Collides(b: Snapshot, order: Id, newPayment: Id)
    requires order in b.orders
  {
    newPayment in b.payments || PaymentKeyUsed(b.payments, b.orders[order].tenant, b.orders[order].key)
  }

  predicate Pays(b: Snapshot, tenant: Id, order: Id) {
    order in b.orders && b.orders[order].tenant == tenant && b.orders[order].status == OrderStatus.Pending
  }

  /** The payment row of this order. */
  function Recorded(b: Snapshot, order: Id, newPayment: Id): Snapshot
    requires order in b.orders
  {
    var o := b.orders[order];
    b.(payments := b.payments[newPayment := Payment(o.tenant, order, o.key, PaymentPending, o.total)])
  }

  function Effect(b: Snapshot, tenant: Id, order: Id, newPayment: Id, f: Faults): (Snapshot, Outcome) {
    if f.read then (b, Unavailable)
    else if order !in b.orders || b.orders[order].tenant != tenant then (b, NotFound)
    else if b.orders[order].status != OrderStatus.Pending then (b, NotPending)
    else if f.intent then (b, GatewayFailed)
    else if f.insert then (b, RecordFailed)
    else if Collides(b, order, newPayment) then (b, Conflict)
    else if f.update then (Recorded(b, order, newPayment), UpdateFailed)
    else
      (Recorded(b, order, newPayment).(orders := b.orders[order := b.orders[order].(status := AwaitingPayment)]), Authorized)
  }

  /**
   The gateway is asked at most once, for exactly the order's total under the order's own key; the
   payment recorded is over that total; and the order then awaits the payment.
   */
  method Authorize(db: Database, tenant: Id, order: Id, newPayment: Id, f: Faults) returns (r: Outcome, asked: Option<Intent>)
    modifies db`orders, db`payments
    ensures (db.Save(), r) == Effect(old(db.Save()), tenant, order, newPayment, f)
    ensures asked.Some? <==> !f.read && Pays(old(db.Save()), tenant, order)
    ensures asked.Some? ==>
      var o := old(db.orders)[order];
      asked.value == Intent(o.total, o.key, order, o.tenant)
    ensures r == Authorized <==>
      && !f.read && Pays(old(db.Save()), tenant, order) && !f.intent && !f.insert && !f.update
      && !Collides(old(db.Save()), order, newPayment)
    ensures r == Authorized ==>
      && newPayment !in old(db.payments) && newPayment in db.payments
      && db.payments[newPayment].order == order && db.payments[newPayment].tenant == tenant
      && db.payments[newPayment].amount == old(db.orders)[order].total && db.payments[newPayment].key == old(db.orders)[order].key
      && db.payments[newPayment].status == PaymentPending
      && db.orders == old(db.orders)[order := old(db.orders)[order].(status := AwaitingPayment)]
    ensures r == UpdateFailed ==> db.orders == old(db.orders) && newPayment in db.payments
    ensures r != Authorized && r != UpdateFailed ==> db.orders == old(db.orders) && db.payments == old(db.payments)
  {
    asked := None;
    if f.read { return Unavailable, asked; }
    if order !in db.orders || db.orders[order].tenant != tenant { return NotFound, asked; }
    var o := db.orders[order];
    if o.status != OrderStatus.Pending { return NotPending, asked; }
    asked := Some(Intent(o.total, o.key, order, o.tenant));
    if f.intent { return GatewayFailed, asked; }
    if f.insert { return RecordFailed, asked; }
    if newPayment in db.payments || PaymentKeyUsed(db.payments, o.tenant, o.key) { return Conflict, asked; }
    db.payments := db.payments[newPayment := Payment(tenant, order, o.key, PaymentPending, o.total)];
    if f.update { return UpdateFailed, asked; }
    var found := db.SetOrderStatus(tenant, order, AwaitingPayment);
    return Authorized, asked;
  }

  // ---- what follows ----

  /** A payment that was authorized is one ConfirmPayment accepts for its order. */
  lemma AuthorizedIsDue(b: Snapshot, tenant: Id, order: Id, newPayment: Id, f: Faults, g: ConfirmPayment.Faults)
    requires Effect(b, tenant, order, newPayment, f).1 == Authorized || Effect(b, tenant, order, newPayment, f).1 == UpdateFailed
    requires g.read > 2
    ensures ConfirmPayment.Due(Effect(b, tenant, order, newPayment, f).0, tenant, order, newPayment, g)
  {
  }

  /**
   When the payment is recorded and the status update fails, the order stays pending and can never be
   authorized again: every retry asks the gateway once more and ends in a conflict or earlier.
   */
  lemma FailedUpdateBlocksRetries(b: Snapshot, tenant: Id, order: Id, newPayment: Id, f: Faults, another: Id, again: Faults)
    requires Effect(b, tenant, order, newPayment, f).1 == UpdateFailed
    ensures
      var c := Effect(b, tenant, order, newPayment, f).0;
      var (d, r) := Effect(c, tenant, order, another, again);
      d == c && r != Authorized && r != UpdateFailed && (!again.read && !again.intent && !again.insert ==> r == Conflict)
  {
    var c := Effect(b, tenant, order, newPayment, f).0;
    assert newPayment in c.payments && c.payments[newPayment].tenant == c.orders[order].tenant
        && c.payments[newPayment].key == c.orders[order].key;
  }

  // ---- the call is a run ----

  lemma Runs(s: State, tenant: Id, order: Id, call: nat, newPayment: Id)
    ensures Exec(s, [AuthorizeStart(tenant, order)]) == DoAuthorizeStart(s, tenant, order)
    ensures Exec(s, [AuthorizeRecord(call, newPayment)]) == DoAuthorizeRecord(s, call, newPayment)
    ensures Exec(s, [AuthorizeFinish(call)]) == DoAuthorizeFinish(s, call)
    ensures Exec(s, [Crash(call)]) == DoCrash(s, call)
  {
    hide Exec, DoHold, DoRelease, DoSellUnit, DoVoid, DoCreateStart, DoCreateRead, DoCreateCommit, DoAuthorizeStart,
      DoAuthorizeRecord, DoAuthorizeFinish, DoConfirmStart, DoConfirmLoad, DoConfirmSell, DoConfirmCommit,
      DoConfirmCapture, DoRefundSend, DoRefundNote, DoRefundClose, DoCrash, DoDispatch, Insert;
    ExecOne(s, AuthorizeStart(tenant, order));
    ExecOne(s, AuthorizeRecord(call, newPayment));
    ExecOne(s, AuthorizeFinish(call));
    ExecOne(s, Crash(call));
  }

  lemma Records(s: State, order: Id, call: nat, newPayment: Id)
    requires call in s.calls && s.calls[call] == Authorizing(order, false) && order in s.orders
    requires !Collides(Refinement.Tables(s), order, newPayment)
    ensures
      var t := DoAuthorizeRecord(s, call, newPayment);
      && Refinement.Tables(t) == Recorded(Refinement.Tables(s), order, newPayment)
      && t.calls == s.calls[call := Authorizing(order, true)]
  {
    assert !PaymentKeyTaken(s, s.orders[order].tenant, s.orders[order].key);
  }

  lemma Finishes(s: State, order: Id, call: nat)
    requires call in s.calls && s.calls[call] == Authorizing(order, true) && order in s.orders
    ensures
      var t := DoAuthorizeFinish(s, call);
      && Refinement.Tables(t) == Refinement.Tables(s).(orders := s.orders[order := s.orders[order].(status := AwaitingPayment)])
      && t.calls == s.calls - {call}
  {
  }

  lemma Dies(s: State, call: nat)
    ensures Refinement.Tables(DoCrash(s, call)) == Refinement.Tables(s) && DoCrash(s, call).calls == s.calls - {call}
  {
  }

  lemma Starts(s: State, tenant: Id, order: Id)
    requires Pays(Refinement.Tables(s), tenant, order)
    ensures DoAuthorizeStart(s, tenant, order) == Begin(s, Authorizing(order, false))
  {
  }

  lemma RecordingRun(s: State, tenant: Id, order: Id, newPayment: Id, update: bool) returns (run: seq<Action>)
    requires s.nextCall !in s.calls && Pays(Refinement.Tables(s), tenant, order) && !Collides(Refinement.Tables(s), order, newPayment)
    ensures
      var t, recorded := Exec(s, run), Recorded(Refinement.Tables(s), order, newPayment);
      && t.calls == s.calls
      && Refinement.Tables(t)
         == if update then recorded.(orders := s.orders[order := s.orders[order].(status := AwaitingPayment)]) else recorded
  {
    hide Exec, Step, DoAuthorizeStart, DoAuthorizeRecord, DoAuthorizeFinish, DoCrash, PaymentKeyUsed;
    var call := s.nextCall;
    var start, record := [AuthorizeStart(tenant, order)], [AuthorizeRecord(call, newPayment)];
    var last := if update then [AuthorizeFinish(call)] else [Crash(call)];
    run := start + record + last;
    ExecConcat(s, start + record, last);
    ExecConcat(s, start, record);
    Runs(s, tenant, order, call, newPayment);
    Starts(s, tenant, order);
    var s1 := Begin(s, Authorizing(order, false));
    Runs(s1, tenant, order, call, newPayment);
    Records(s1, order, call, newPayment);
    var s2 := DoAuthorizeRecord(s1, call, newPayment);
    Runs(s2, tenant, order, call, newPayment);
    Finishes(s2, order, call);
    Dies(s2, call);
    assert s.calls[call := Authorizing(order, false)][call := Authorizing(order, true)] - {call} == s.calls;
  }

  /** What the method does, for every input and every failure, is what a run of the protocol does, and nothing is left in flight. */
  lemma AuthorizeIsARun(s: State, tenant: Id, order: Id, newPayment: Id, f: Faults) returns (run: seq<Action>)
    requires s.nextCall !in s.calls
    ensures
      var t := Exec(s, run);
      Refinement.Tables(t) == Effect(Refinement.Tables(s), tenant, order, newPayment, f).0 && t.calls == s.calls
  {
    run := [];
    var r := Effect(Refinement.Tables(s), tenant, order, newPayment, f).1;
    if r == Authorized || r == UpdateFailed {
      hide Exec, Step, PaymentKeyUsed, Recorded;
      run := RecordingRun(s, tenant, order, newPayment, r == Authorized);
    }
  }
}
