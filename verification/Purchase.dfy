/**
 The purchase protocol as a state machine. One action is one SQL statement outside a
 transaction, one statement or the commit of the confirm transaction, one gateway call, or one
 crash; actions of any number of service calls interleave freely. An action that is not
 possible in a state (a WHERE clause that matches nothing, a wait for a row lock, a call that
 is elsewhere) leaves the state as it is, so every sequence of actions is a run.
 */
module Purchase {
  import opened Types
  import opened SeatTable

  datatype OrderStatus = Pending | AwaitingPayment | Paid | Expired

  datatype Order = Order(
    tenant: Id, user: Id, key: string, status: OrderStatus,
    items: seq<Item>, total: Money, expiresAt: Option<Time>)

  datatype PaymentStatus = PaymentPending | Captured | Refunded

  datatype Payment = Payment(tenant: Id, order: Id, key: string, status: PaymentStatus, amount: Money)

  datatype NoteStatus = NotePending | NoteSent | NoteFailed

  /** A row of the transactional outbox: an order confirmation waiting to be sent. */
  datatype Note = Note(tenant: Id, user: Id, order: Id, itemCount: nat, total: Money, status: NoteStatus)

  /** What a client asks `CreateOrder` to include. */
  datatype Want = Want(row: Id, token: Id)

  /**
   How far one `ConfirmPayment` has come: `Checked` has read an order that is not paid;
   `Selling(n)` has loaded the payment and run n of the transaction's UPDATEs; `Committed`
   still has to mark the payment captured; the last three are the steps of `refundAndFail`.
   */
  datatype Stage = Checked | Selling(next: nat) | Committed | Aborted | RefundSent | RefundNoted

  datatype Call =
    | Creating(tenant: Id, user: Id, key: string, wants: seq<Want>,
               lines: seq<Item>, subtotal: Money, tightest: Option<Time>)
    | Authorizing(order: Id, recorded: bool)
    | Confirming(order: Id, payment: Id, stage: Stage)

  /** The unit, the expiry and the user a hold token was issued for. */
  datatype Issue = Issue(row: Id, expires: Time, user: Id)

  /** A committed transaction that sold units; the order is None for a stand-alone ConfirmSale. */
  datatype Sale = Sale(order: Option<Id>, rows: seq<Id>)

  /**
   The database (`table`, `orders`, `payments`, `outbox`), the row locks of open confirm
   transactions, the service calls in flight, and what has happened so far: the hold tokens
   issued, the sales committed, the orders whose confirm transaction aborted on an invalid
   hold, and the orders for which the gateway was asked for a refund.
   */
  datatype State = State(
    now: Time,
    table: Table, orders: map<Id, Order>, payments: map<Id, Payment>, outbox: seq<Note>,
    locks: map<Id, nat>, calls: map<nat, Call>, nextCall: nat,
    issued: map<Id, Issue>, sales: seq<Sale>, failed: set<Id>, refunds: seq<Id>)

  const START := State(0, EMPTY, map[], map[], [], map[], map[], 0, map[], [], {}, [])

  datatype Action =
    | Tick(d: nat)
    | CreateUnit(id: Id, tenant: Id, event: Id, category: Id, seat: Option<Id>)
    | HoldUnit(tenant: Id, id: Id, token: Id, user: Id, expires: Time)
    | ReleaseUnit(tenant: Id, id: Id, token: Id)
    | SellUnit(tenant: Id, id: Id, token: Id)
    | Withdraw(tenant: Id, id: Id)
    | CreateStart(tenant: Id, user: Id, key: string, wants: seq<Want>)
    | CreateRead(call: nat, price: Money)
    | CreateCommit(call: nat, order: Id)
    | AuthorizeStart(tenant: Id, order: Id)
    | AuthorizeRecord(call: nat, payment: Id)
    | AuthorizeFinish(call: nat)
    | ConfirmStart(tenant: Id, order: Id, payment: Id)
    | ConfirmLoad(call: nat)
    | ConfirmSell(call: nat)
    | ConfirmCommit(call: nat)
    | ConfirmCapture(call: nat)
    | RefundSend(call: nat)
    | RefundNote(call: nat)
    | RefundClose(call: nat)
    | Crash(call: nat)
    | Dispatch(note: nat, status: NoteStatus)

  // ---- bookkeeping of calls and locks ----

  function Begin(s: State, c: Call): State {
    s.(calls := s.calls[s.nextCall := c], nextCall := s.nextCall + 1)
  }

  function End(s: State, call: nat): State {
    s.(calls := s.calls - {call})
  }

  function Without(locks: map<Id, nat>, call: nat): map<Id, nat> {
    map r | r in locks && locks[r] != call :: locks[r]
  }

  predicate AtStage(s: State, call: nat, stage: Stage) {
    call in s.calls && s.calls[call].Confirming? && s.calls[call].stage == stage
  }

  predicate IsSelling(s: State, call: nat) {
    call in s.calls && s.calls[call].Confirming? && s.calls[call].stage.Selling?
  }

  function ToStage(s: State, call: nat, stage: Stage): State
    requires call in s.calls && s.calls[call].Confirming?
  {
    s.(calls := s.calls[call := s.calls[call].(stage := stage)])
  }

  /** No unit was written; a failed confirmation may have been noted. */
  predicate SameUnits(s: State, t: State) {
    t.table == s.table && t.issued == s.issued && t.sales == s.sales && s.failed <= t.failed
  }

  /** Orders and payments were not written. */
  predicate SameBooks(s: State, t: State) {
    t.orders == s.orders && t.payments == s.payments
  }

  // ---- stand-alone statements on units ----

  /** The token of a hold is drawn at random by `HoldSeat`: never one issued before. */
  function DoHold(s: State, tenant: Id, id: Id, token: Id, user: Id, expires: Time): State {
    if IsAvailable(s.table, tenant, id) && id !in s.locks && token !in s.issued then
      s.(table := Hold(s.table, tenant, id, token, user, expires),
         issued := s.issued[token := Issue(id, expires, user)])
    else s
  }

  function DoRelease(s: State, tenant: Id, id: Id, token: Id): State {
    if id in s.locks then s else s.(table := Release(s.table, tenant, id, token))
  }

  function DoSellUnit(s: State, tenant: Id, id: Id, token: Id): State {
    if id in s.locks || !Carries(s.table, tenant, id, token) then s
    else s.(table := ConfirmSale(s.table, tenant, id, token), sales := s.sales + [Sale(None, [id])])
  }

  function DoVoid(s: State, tenant: Id, id: Id): State {
    if id in s.locks then s else s.(table := VoidUnit(s.table, tenant, id))
  }

  // ---- CreateOrder ----

  predicate KeyTaken(s: State, tenant: Id, key: string) {
    exists o | o in s.orders :: s.orders[o].tenant == tenant && s.orders[o].key == key
  }

  /** Rejects an empty order; a key already used returns the existing order and starts nothing. */
  function DoCreateStart(s: State, tenant: Id, user: Id, key: string, wants: seq<Want>): (t: State)
    ensures SameUnits(s, t) && SameBooks(s, t)
  {
    if wants == [] || KeyTaken(s, tenant, key) then s
    else Begin(s, Creating(tenant, user, key, wants, [], Money(0, ""), None))
  }

  /** The tighter of the expiry so far and the next row's. */
  function Earlier(tightest: Option<Time>, expires: Option<Time>): Option<Time> {
    if tightest.None? || (expires.Some? && expires.value < tightest.value) then expires else tightest
  }

  /** The next hold's price and expiry added to what has been accumulated, unless the currencies differ. */
  function Extended(c: Call, expires: Option<Time>, price: Money): (more: Option<Call>)
    requires c.Creating? && |c.lines| < |c.wants|
    ensures more.Some? ==> more.value.Creating? && |more.value.lines| == |c.lines| + 1
  {
    var want := c.wants[|c.lines|];
    var sum := if c.lines == [] then Some(price) else AddMoney(c.subtotal, price);
    if sum.None? then None
    else
      Some(c.(lines := c.lines + [Item(want.row, want.token, price)], subtotal := sum.value,
              tightest := Earlier(c.tightest, expires)))
  }

  /**
   Validates the next hold against the row as committed now and accumulates its price, which is
   whatever the category lookup answered; an invalid hold or another currency ends the call. A
   refusal that depends on the category alone is a crash of the call.
   */
  function DoCreateRead(s: State, call: nat, price: Money): (t: State)
    ensures SameUnits(s, t) && SameBooks(s, t)
  {
    if call in s.calls && s.calls[call].Creating? && |s.calls[call].lines| < |s.calls[call].wants| then
      var c := s.calls[call];
      var want := c.wants[|c.lines|];
      if Carries(s.table, c.tenant, want.row, want.token) && !LapsedAt(s.table.rows[want.row], s.now) then
        match Extended(c, s.table.rows[want.row].holdExpiresAt, price)
        case Some(more) => s.(calls := s.calls[call := more])
        case None => End(s, call)
      else End(s, call)
    else s
  }

  predicate LapsedAt(r: Row, now: Time) {
    r.holdExpiresAt.Some? && r.holdExpiresAt.value < now
  }

  /** What the CHECKs on orders and order_items admit. */
  predicate Admissible(items: seq<Item>, total: Money) {
    total.cents >= 0 && forall k | 0 <= k < |items| :: items[k].price.cents >= 0
  }

  /** The INSERT of the order and its items, refused by a unique key or a CHECK; there are no fees. */
  function DoCreateCommit(s: State, call: nat, order: Id): (t: State)
    ensures SameUnits(s, t)
  {
    if call in s.calls && s.calls[call].Creating? && |s.calls[call].lines| == |s.calls[call].wants| then
      var c := s.calls[call];
      if order in s.orders || KeyTaken(s, c.tenant, c.key) || !Admissible(c.lines, c.subtotal) then End(s, call)
      else End(s.(orders := s.orders[order :=
        Order(c.tenant, c.user, c.key, Pending, c.lines, c.subtotal, c.tightest)]), call)
    else s
  }

  // ---- AuthorizePayment ----

  function DoAuthorizeStart(s: State, tenant: Id, order: Id): (t: State)
    ensures SameUnits(s, t) && SameBooks(s, t)
  {
    if order in s.orders && s.orders[order].tenant == tenant && s.orders[order].status == Pending then
      Begin(s, Authorizing(order, false))
    else s
  }

  predicate PaymentKeyTaken(s: State, tenant: Id, key: string) {
    exists p | p in s.payments :: s.payments[p].tenant == tenant && s.payments[p].key == key
  }

  /** The gateway has answered; the payment row takes over the order's idempotency key. */
  function DoAuthorizeRecord(s: State, call: nat, payment: Id): (t: State)
    ensures SameUnits(s, t)
  {
    if call in s.calls && s.calls[call].Authorizing? && !s.calls[call].recorded && s.calls[call].order in s.orders then
      var id := s.calls[call].order;
      var o := s.orders[id];
      if payment in s.payments || PaymentKeyTaken(s, o.tenant, o.key) then End(s, call)
      else s.(payments := s.payments[payment := Payment(o.tenant, id, o.key, PaymentPending, o.total)],
              calls := s.calls[call := Authorizing(id, true)])
    else s
  }

  function SetOrderStatus(s: State, order: Id, status: OrderStatus): State {
    if order in s.orders then s.(orders := s.orders[order := s.orders[order].(status := status)]) else s
  }

  function SetPaymentStatus(s: State, payment: Id, status: PaymentStatus): State {
    if payment in s.payments then
      s.(payments := s.payments[payment := s.payments[payment].(status := status)])
    else s
  }

  function DoAuthorizeFinish(s: State, call: nat): (t: State)
    ensures SameUnits(s, t)
  {
    if call in s.calls && s.calls[call].Authorizing? && s.calls[call].recorded then
      End(SetOrderStatus(s, s.calls[call].order, AwaitingPayment), call)
    else s
  }

  // ---- ConfirmPayment ----

  /** Reads the order outside any transaction; a paid order returns at once. */
  function DoConfirmStart(s: State, tenant: Id, order: Id, payment: Id): (t: State)
    ensures SameUnits(s, t) && SameBooks(s, t)
  {
    if order in s.orders && s.orders[order].tenant == tenant && s.orders[order].status != Paid then
      Begin(s, Confirming(order, payment, Checked))
    else s
  }

  /** The payment is this order's, of the same tenant. */
  predicate Matches(orders: map<Id, Order>, payments: map<Id, Payment>, order: Id, payment: Id) {
    && order in orders && payment in payments
    && payments[payment].tenant == orders[order].tenant
    && payments[payment].order == order
  }

  predicate PaymentMatches(s: State, order: Id, payment: Id) {
    Matches(s.orders, s.payments, order, payment)
  }

  function DoConfirmLoad(s: State, call: nat): (t: State)
    ensures SameUnits(s, t) && SameBooks(s, t)
  {
    if AtStage(s, call, Checked) then
      if PaymentMatches(s, s.calls[call].order, s.calls[call].payment) then ToStage(s, call, Selling(0))
      else End(s, call)
    else s
  }

  /** Rolls the transaction back and turns to the refund. */
  function Abort(s: State, call: nat): State
    requires call in s.calls && s.calls[call].Confirming?
  {
    ToStage(s, call, Aborted).(
      locks := Without(s.locks, call),
      failed := s.failed + {s.calls[call].order})
  }

  predicate SellsNext(s: State, call: nat) {
    && IsSelling(s, call)
    && s.calls[call].order in s.orders
    && s.calls[call].stage.next < |s.orders[s.calls[call].order].items|
  }

  /**
   One `ConfirmSale` of the open transaction. The transaction sees its own earlier UPDATEs, so
   a unit it has already sold no longer matches; a unit locked by another transaction is waited for.
   */
  function DoConfirmSell(s: State, call: nat): (t: State)
    ensures SameUnits(s, t) && SameBooks(s, t)
  {
    if SellsNext(s, call) then
      var n := s.calls[call].stage.next;
      var o := s.orders[s.calls[call].order];
      var it := o.items[n];
      if it.row in s.locks && s.locks[it.row] == call then Abort(s, call)
      else if !Carries(s.table, o.tenant, it.row, it.token) then Abort(s, call)
      else if it.row in s.locks then s
      else ToStage(s, call, Selling(n + 1)).(locks := s.locks[it.row := call])
    else s
  }

  predicate ReadyToCommit(s: State, call: nat) {
    && IsSelling(s, call)
    && s.calls[call].order in s.orders
    && s.calls[call].stage.next == |s.orders[s.calls[call].order].items|
  }

  function RowList(items: seq<Item>): seq<Id> {
    seq(|items|, k requires 0 <= k < |items| => items[k].row)
  }

  /** Sales, order status and outbox row become visible together, and the locks are released. */
  function DoConfirmCommit(s: State, call: nat): State {
    if ReadyToCommit(s, call) then
      var id := s.calls[call].order;
      var o := s.orders[id];
      ToStage(s, call, Committed).(
        table := SellAll(s.table, o.tenant, o.items),
        orders := s.orders[id := o.(status := Paid)],
        outbox := s.outbox + [Note(o.tenant, o.user, id, |o.items|, o.total, NotePending)],
        locks := Without(s.locks, call),
        sales := s.sales + [Sale(Some(id), RowList(o.items))])
    else s
  }

  function DoConfirmCapture(s: State, call: nat): (t: State)
    ensures SameUnits(s, t)
  {
    if AtStage(s, call, Committed) then
      End(SetPaymentStatus(s, s.calls[call].payment, Captured), call)
    else s
  }

  function DoRefundSend(s: State, call: nat): (t: State)
    ensures SameUnits(s, t) && SameBooks(s, t)
  {
    if AtStage(s, call, Aborted) then
      ToStage(s, call, RefundSent).(refunds := s.refunds + [s.calls[call].order])
    else s
  }

  function DoRefundNote(s: State, call: nat): (t: State)
    ensures SameUnits(s, t)
  {
    if AtStage(s, call, RefundSent) then
      ToStage(SetPaymentStatus(s, s.calls[call].payment, Refunded), call, RefundNoted)
    else s
  }

  function DoRefundClose(s: State, call: nat): (t: State)
    ensures SameUnits(s, t)
  {
    if AtStage(s, call, RefundNoted) then
      End(SetOrderStatus(s, s.calls[call].order, Expired), call)
    else s
  }

  /** An error or a dead process at any point: an open transaction rolls back, the call is gone. */
  function DoCrash(s: State, call: nat): (t: State)
    ensures SameUnits(s, t) && SameBooks(s, t)
  {
    End(s, call).(locks := Without(s.locks, call))
  }

  function DoDispatch(s: State, note: nat, status: NoteStatus): (t: State)
    ensures SameUnits(s, t) && SameBooks(s, t)
  {
    if note < |s.outbox| then s.(outbox := s.outbox[note := s.outbox[note].(status := status)]) else s
  }

  function Step(s: State, a: Action): State {
    match a
    case Tick(d) => s.(now := s.now + d)
    case CreateUnit(id, tenant, event, category, seat) =>
      s.(table := Insert(s.table, id, tenant, event, category, seat))
    case HoldUnit(tenant, id, token, user, expires) => DoHold(s, tenant, id, token, user, expires)
    case ReleaseUnit(tenant, id, token) => DoRelease(s, tenant, id, token)
    case SellUnit(tenant, id, token) => DoSellUnit(s, tenant, id, token)
    case Withdraw(tenant, id) => DoVoid(s, tenant, id)
    case CreateStart(tenant, user, key, wants) => DoCreateStart(s, tenant, user, key, wants)
    case CreateRead(call, price) => DoCreateRead(s, call, price)
    case CreateCommit(call, order) => DoCreateCommit(s, call, order)
    case AuthorizeStart(tenant, order) => DoAuthorizeStart(s, tenant, order)
    case AuthorizeRecord(call, payment) => DoAuthorizeRecord(s, call, payment)
    case AuthorizeFinish(call) => DoAuthorizeFinish(s, call)
    case ConfirmStart(tenant, order, payment) => DoConfirmStart(s, tenant, order, payment)
    case ConfirmLoad(call) => DoConfirmLoad(s, call)
    case ConfirmSell(call) => DoConfirmSell(s, call)
    case ConfirmCommit(call) => DoConfirmCommit(s, call)
    case ConfirmCapture(call) => DoConfirmCapture(s, call)
    case RefundSend(call) => DoRefundSend(s, call)
    case RefundNote(call) => DoRefundNote(s, call)
    case RefundClose(call) => DoRefundClose(s, call)
    case Crash(call) => DoCrash(s, call)
    case Dispatch(note, status) => DoDispatch(s, note, status)
  }

  /** The state after a run of actions, in order. */
  function Exec(s: State, run: seq<Action>): State
    decreases run
  {
    if run == [] then s else Exec(Step(s, run[0]), run[1..])
  }

  lemma {:induction false} ExecConcat(s: State, first: seq<Action>, second: seq<Action>)
    ensures Exec(s, first + second) == Exec(Exec(s, first), second)
    decreases first
  {
    if first == [] {
      assert first + second == second;
    } else {
      assert (first + second)[1..] == first[1..] + second;
      ExecConcat(Step(s, first[0]), first[1..], second);
    }
  }
}
