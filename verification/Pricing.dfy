/** What a persisted order costs and when it expires, in every run: reads of an order interleave with everything else. */
module Pricing {
  import opened Types
  import opened SeatTable
  import opened Ledger
  import opened Purchase
  import opened Invariants
  import opened Guarantees

  /** The exact sum of the items' prices. */
  function PriceSum(items: seq<Item>): int {
    if items == [] then 0 else PriceSum(items[..|items| - 1]) + items[|items| - 1].price.cents
  }

  /** The smallest expiry any of the items' tokens was issued with. */
  ghost predicate IsEarliest(e: Option<Time>, items: seq<Item>, issued: map<Id, Issue>) {
    && e.Some?
    && (forall k | 0 <= k < |items| :: items[k].token in issued && e.value <= issued[items[k].token].expires)
    && exists k :: 0 <= k < |items| && e.value == issued[items[k].token].expires
  }

  ghost predicate InOneCurrency(items: seq<Item>, currency: string) {
    forall k | 0 <= k < |items| :: items[k].price.currency == currency
  }

  /** The total is the sum as int64 arithmetic gives it, in the items' one currency, and the expiry is the tightest. */
  ghost predicate PricedAs(items: seq<Item>, total: Money, expires: Option<Time>, issued: map<Id, Issue>) {
    && total.cents == Wrap64(PriceSum(items))
    && InOneCurrency(items, total.currency)
    && IsEarliest(expires, items, issued)
  }

  ghost predicate OrderPriced(o: Order, issued: map<Id, Issue>) {
    o.items != [] && PricedAs(o.items, o.total, o.expiresAt, issued) && Admissible(o.items, o.total)
  }

  ghost predicate CallPriced(c: Call, issued: map<Id, Issue>) {
    c.Creating? ==>
      && c.wants != []
      && if c.lines == [] then c.tightest.None? else PricedAs(c.lines, c.subtotal, c.tightest, issued)
  }

  ghost predicate PricesOk(s: State) {
    && (forall o | o in s.orders :: OrderPriced(s.orders[o], s.issued))
    && (forall c | c in s.calls :: CallPriced(s.calls[c], s.issued))
  }

  // ---- one more line ----

  lemma SumAppend(items: seq<Item>, it: Item)
    ensures PriceSum(items + [it]) == PriceSum(items) + it.price.cents
  {
    assert (items + [it])[..|items|] == items;
  }

  /** A row held under the wanted token has exactly the expiry that token was issued with. */
  lemma ReadKeepsPriced(c: Call, r: Row, price: Money, issued: map<Id, Issue>)
    requires c.Creating? && |c.lines| < |c.wants| && CallPriced(c, issued)
    requires r.status == Held && r.holdToken == Some(c.wants[|c.lines|].token)
    requires HoldIssued(issued, c.wants[|c.lines|].row, r)
    ensures
      var more := Extended(c, r.holdExpiresAt, price);
      more.Some? ==> CallPriced(more.value, issued)
  {
    var want := c.wants[|c.lines|];
    var it := Item(want.row, want.token, price);
    var lines := c.lines + [it];
    SumAppend(c.lines, it);
    assert lines[|c.lines|] == it;
    if c.lines != [] {
      WrapAdds(PriceSum(c.lines), price.cents);
      EarlierIsEarliest(c.lines, it, c.tightest, issued);
    }
  }

  lemma EarlierIsEarliest(items: seq<Item>, it: Item, e: Option<Time>, issued: map<Id, Issue>)
    requires IsEarliest(e, items, issued) && it.token in issued
    ensures IsEarliest(Earlier(e, Some(issued[it.token].expires)), items + [it], issued)
  {
    var more := items + [it];
    var k :| 0 <= k < |items| && e.value == issued[items[k].token].expires;
    assert more[k] == items[k] && more[|items|] == it;
  }

  // ---- every action ----

  lemma MoreTokensKeepPriced(items: seq<Item>, total: Money, e: Option<Time>, issued: map<Id, Issue>, more: map<Id, Issue>)
    requires PricedAs(items, total, e, issued) && forall t | t in issued :: t in more && more[t] == issued[t]
    ensures PricedAs(items, total, e, more)
  {
    var k :| 0 <= k < |items| && e.value == issued[items[k].token].expires;
    assert e.value == more[items[k].token].expires;
  }

  lemma NewOrderIsCommitted(s: State, a: Action, o: Id)
    requires o in Step(s, a).orders && o !in s.orders
    ensures
      && a.CreateCommit? && a.call in s.calls && s.calls[a.call].Creating?
      && var c := s.calls[a.call];
        && |c.lines| == |c.wants| && Admissible(c.lines, c.subtotal)
        && Step(s, a).orders[o] == Order(c.tenant, c.user, c.key, Pending, c.lines, c.subtotal, c.tightest)
  {
    hide Hold, Release, VoidUnit, ConfirmSale, Insert, SellAll, Carries, KeyTaken, PaymentKeyTaken, PaymentMatches,
      LapsedAt, Extended, RowList, Admissible;
  }

  lemma OrdersStayPriced(s: State, a: Action, o: Id)
    requires PricesOk(s) && o in Step(s, a).orders
    ensures OrderPriced(Step(s, a).orders[o], Step(s, a).issued)
  {
    hide Step, PricedAs, Admissible;
    var t := Step(s, a);
    forall token | token in s.issued ensures token in t.issued && t.issued[token] == s.issued[token] {
      StepKeepsIssued(s, a, token);
    }
    if o in s.orders {
      StepGrows(s, a);
      var was := s.orders[o];
      assert OrderPriced(was, s.issued);
      MoreTokensKeepPriced(was.items, was.total, was.expiresAt, s.issued, t.issued);
    } else {
      NewOrderIsCommitted(s, a, o);
      var c := s.calls[a.call];
      assert CallPriced(c, s.issued);
      MoreTokensKeepPriced(c.lines, c.subtotal, c.tightest, s.issued, t.issued);
    }
  }

  lemma CallsStayPriced(s: State, a: Action, c: nat)
    requires PricesOk(s) && RowsOk(s.table, s.issued) && c in Step(s, a).calls
    ensures CallPriced(Step(s, a).calls[c], Step(s, a).issued)
  {
    hide Step, PricedAs, RowsOk;
    var t := Step(s, a);
    if t.calls[c].Creating? {
      if a.CreateStart? {
        StartStaysPriced(s, a, c);
      } else if a.CreateRead? && a.call == c {
        ReadStaysPriced(s, a);
      } else {
        StepKeepsCreating(s, a, c);
        assert CallPriced(s.calls[c], s.issued);
        forall token | token in s.issued ensures token in t.issued && t.issued[token] == s.issued[token] {
          StepKeepsIssued(s, a, token);
        }
        if s.calls[c].lines != [] {
          MoreTokensKeepPriced(s.calls[c].lines, s.calls[c].subtotal, s.calls[c].tightest, s.issued, t.issued);
        }
      }
    }
  }

  lemma StartStaysPriced(s: State, a: Action, c: nat)
    requires PricesOk(s) && a.CreateStart? && c in Step(s, a).calls
    ensures CallPriced(Step(s, a).calls[c], Step(s, a).issued)
  {
    hide PricedAs, OrderPriced, KeyTaken;
    assert Step(s, a) == DoCreateStart(s, a.tenant, a.user, a.key, a.wants);
  }

  lemma ReadStaysPriced(s: State, a: Action)
    requires PricesOk(s) && RowsOk(s.table, s.issued) && a.CreateRead? && a.call in Step(s, a).calls
    ensures CallPriced(Step(s, a).calls[a.call], Step(s, a).issued)
  {
    hide PricedAs, OrderPriced, Extended, WellFormed;
    assert Step(s, a) == DoCreateRead(s, a.call, a.price);
    hide Step;
    assert CallPriced(s.calls[a.call], s.issued);
    if s.calls[a.call].Creating? && |s.calls[a.call].lines| < |s.calls[a.call].wants| {
      var c := s.calls[a.call];
      var want := c.wants[|c.lines|];
      if Carries(s.table, c.tenant, want.row, want.token) {
        assert HoldIssued(s.issued, want.row, s.table.rows[want.row]);
        ReadKeepsPriced(c, s.table.rows[want.row], a.price, s.issued);
      }
    }
  }

  lemma {:induction false} ExecKeepsPrices(s: State, run: seq<Action>)
    requires Inv(s) && PricesOk(s)
    ensures PricesOk(Exec(s, run))
    decreases run
  {
    hide Step, OrderPriced, CallPriced, RowsOk, LedgerAgrees, OrdersOk, SalesOk, OutboxOk, KeysOk, FailedOk, CallsOk, LocksOk;
    if run != [] {
      var t := Step(s, run[0]);
      StepKeeps(s, run[0]);
      forall o | o in t.orders ensures OrderPriced(t.orders[o], t.issued) { OrdersStayPriced(s, run[0], o); }
      forall c | c in t.calls ensures CallPriced(t.calls[c], t.issued) { CallsStayPriced(s, run[0], c); }
      ExecKeepsPrices(t, run[1..]);
    }
  }

  lemma {:induction false} SumNotNegative(items: seq<Item>)
    requires forall k | 0 <= k < |items| :: items[k].price.cents >= 0
    ensures PriceSum(items) >= 0
  {
    if items != [] { SumNotNegative(items[..|items| - 1]); }
  }

  /**
   In every run, however reads interleave with holds, releases, sweeps and other orders: an order's
   total is the sum of its items' prices as int64 adds them, exact if and only if the sum is below
   2^63; all items are in the order's currency; and the order expires with the first of the holds
   its tokens were issued for.
   */
  lemma EveryOrderIsPriced(run: seq<Action>, order: Id)
    requires order in Exec(START, run).orders
    ensures
      var s := Exec(START, run);
      var o := s.orders[order];
      && o.total.cents == Wrap64(PriceSum(o.items))
      && (o.total.cents == PriceSum(o.items) <==> PriceSum(o.items) < TWO_63)
      && InOneCurrency(o.items, o.total.currency)
      && IsEarliest(o.expiresAt, o.items, s.issued)
  {
    hide Exec, Wrap64, IsEarliest;
    StartOk();
    ExecKeepsPrices(START, run);
    var o := Exec(START, run).orders[order];
    assert OrderPriced(o, Exec(START, run).issued);
    SumNotNegative(o.items);
    WrapIsExact(PriceSum(o.items));
  }

  lemma WrapIsExact(n: int)
    ensures n >= 0 ==> (Wrap64(n) == n <==> n < TWO_63)
  {
  }
}
