/**
 `CreateOrder`: validation of the holds, pricing with a per-event category cache, the per-category
 limit, the running subtotal in `int64` cents and the tightest expiry, against a declarative
 description of which orders are accepted and what is persisted.
 */
module CreateOrder {
  import opened Types
  import opened SeatTable
  import opened Purchase
  import opened Repositories

  /** A row of `event_ticket_categories`. */
  datatype Category = Category(id: Id, price: Money, maxPerOrder: int)

  /** The categories of each tenant's event, as `ListTicketCategories` returns them. */
  type Catalog = map<(Id, Id), seq<Category>>

  function Listed(catalog: Catalog, tenant: Id, event: Id): seq<Category> {
    if (tenant, event) in catalog then catalog[(tenant, event)] else []
  }

  /** The first category with this identifier. */
  function Find(categories: seq<Category>, id: Id): Option<Category> {
    if categories == [] then None
    else if categories[0].id == id then Some(categories[0])
    else Find(categories[1..], id)
  }

  // ---- what is asked ----

  /**
   Everything the answer depends on. Item k is read at its own moment: `view(k)` and `clock(k)` are
   the committed table and the time then. `unreadable` are the items whose read fails and
   `unlisted` the events whose categories cannot be listed.
   */
  datatype Request = Request(
    view: nat -> Table, clock: nat -> Time, catalog: Catalog, tenant: Id, wants: seq<Want>,
    unreadable: set<nat>, unlisted: set<Id>)
  {
    predicate Has(k: nat) {
      k < |wants| && Exists(view(k), tenant, wants[k].row)
    }

    function RowAt(k: nat): Row
      requires Has(k)
    {
      view(k).rows[wants[k].row]
    }

    function CategoryAt(k: nat): Option<Category>
      requires Has(k)
    {
      Find(Listed(catalog, tenant, RowAt(k).event), RowAt(k).category)
    }

    predicate Priced(k: nat) {
      Has(k) && CategoryAt(k).Some?
    }

    function PriceAt(k: nat): Money {
      if Priced(k) then CategoryAt(k).value.price else Money(0, "")
    }

    /** How many of the first n wanted units are of this category. */
    function CountOf(n: nat, category: Id): nat
      requires n <= |wants|
    {
      if n == 0 then 0
      else CountOf(n - 1, category) + if Has(n - 1) && RowAt(n - 1).category == category then 1 else 0
    }

    /** The exact sum of the first n prices. */
    function Sum(n: nat): int
      requires n <= |wants|
    {
      if n == 0 then 0 else Sum(n - 1) + PriceAt(n - 1).cents
    }

    /** The smallest of the first n expiries. */
    function Tightest(n: nat): Option<Time>
      requires n <= |wants| && forall k | 0 <= k < n :: Has(k)
    {
      if n == 0 then None
      else
        Earlier(Tightest(n - 1), RowAt(n - 1).holdExpiresAt)
    }

    function Lines(n: nat): seq<Item>
      requires n <= |wants|
    {
      seq(n, k requires 0 <= k < n => Item(wants[k].row, wants[k].token, PriceAt(k)))
    }

    /** Why item k is refused, all items before it having been accepted. */
    function Problem(k: nat): Option<Refusal>
      requires k < |wants|
    {
      if k in unreadable then Some(Unreadable(k))
      else if !Has(k) then Some(MissingUnit(k))
      else if RowAt(k).status != Held || RowAt(k).holdToken != Some(wants[k].token) then Some(NotHeld(k))
      else if LapsedAt(RowAt(k), clock(k)) then Some(HoldExpired(k))
      else if RowAt(k).event in unlisted then Some(Unlisted(k))
      else if CategoryAt(k).None? then Some(NoCategory(k))
      else if CountOf(k + 1, RowAt(k).category) > CategoryAt(k).value.maxPerOrder then Some(TooMany(k))
      else if PriceAt(k).currency != PriceAt(0).currency then Some(MixedCurrency(k))
      else None
    }

    /** All items are acceptable. */
    ghost predicate Acceptable() {
      forall k | 0 <= k < |wants| :: Problem(k).None?
    }

    ghost predicate FirstProblem(k: nat, p: Refusal) {
      && k < |wants| && Problem(k) == Some(p)
      && forall j | 0 <= j < k :: Problem(j).None?
    }
  }

  datatype Refusal =
    | EmptyOrder | LookupFailed | Unreadable(k: nat) | MissingUnit(k: nat) | NotHeld(k: nat) | HoldExpired(k: nat)
    | Unlisted(k: nat) | NoCategory(k: nat) | TooMany(k: nat) | MixedCurrency(k: nat)
    | Conflict      // a unique key of the orders table
    | CheckViolated // a CHECK of the orders or the order_items table
    | InsertFailed

  datatype Answer = Existing(order: Id) | New(order: Id) | Refused(why: Refusal)

  predicate KeyOf(orders: map<Id, Order>, tenant: Id, key: string, o: Id) {
    o in orders && orders[o].tenant == tenant && orders[o].key == key
  }

  /** What is persisted. */
  function Priced(q: Request, user: Id, key: string): Order
    requires forall k | 0 <= k < |q.wants| :: q.Has(k)
  {
    Order(q.tenant, user, key, Pending, q.Lines(|q.wants|),
          Money(Wrap64(q.Sum(|q.wants|)), q.PriceAt(0).currency), q.Tightest(|q.wants|))
  }

  // ---- the code ----

  method FindCategory(categories: seq<Category>, id: Id) returns (found: Option<Category>)
    ensures found.Some? ==> found.value in categories && found.value.id == id
    ensures found.None? <==> forall c | c in categories :: c.id != id
    ensures found == Find(categories, id)
  {
    found := None;
    for i := 0 to |categories|
      invariant forall k | 0 <= k < i :: categories[k].id != id
      invariant Find(categories, id) == Find(categories[i..], id)
    {
      if categories[i].id == id {
        return Some(categories[i]);
      }
    }
  }

  ghost predicate CacheOk(q: Request, cache: map<Id, seq<Category>>) {
    forall event | event in cache :: event !in q.unlisted && cache[event] == Listed(q.catalog, q.tenant, event)
  }

  ghost predicate CountOk(q: Request, count: map<Id, nat>, n: nat)
    requires n <= |q.wants|
  {
    forall c :: (if c in count then count[c] else 0) == q.CountOf(n, c)
  }

  /** Everything one round checks before it adds the price: the hold, the category and its limit. */
  method CheckItem(q: Request, k: nat, cache0: map<Id, seq<Category>>, count0: map<Id, nat>)
    returns (problem: Option<Refusal>, price: Money, cache: map<Id, seq<Category>>, count: map<Id, nat>)
    requires k < |q.wants| && CacheOk(q, cache0) && CountOk(q, count0, k)
    ensures problem.Some? ==> problem == q.Problem(k)
    ensures problem.None? ==>
      && q.Has(k) && price == q.PriceAt(k) && CacheOk(q, cache) && CountOk(q, count, k + 1)
      && q.Problem(k) == if price.currency != q.PriceAt(0).currency then Some(MixedCurrency(k)) else None
  {
    var want := q.wants[k];
    price, cache, count := Money(0, ""), cache0, count0;
    if k in q.unreadable {
      return Some(Unreadable(k)), price, cache, count;
    }
    if want.row !in q.view(k).rows || q.view(k).rows[want.row].tenant != q.tenant {
      return Some(MissingUnit(k)), price, cache, count;
    }
    var row := q.view(k).rows[want.row];
    if row.status != Held || row.holdToken.None? || row.holdToken.value != want.token {
      return Some(NotHeld(k)), price, cache, count;
    }
    if row.holdExpiresAt.Some? && row.holdExpiresAt.value < q.clock(k) {
      return Some(HoldExpired(k)), price, cache, count;
    }
    if row.event !in cache {
      if row.event in q.unlisted {
        return Some(Unlisted(k)), price, cache, count;
      }
      cache := cache[row.event := Listed(q.catalog, q.tenant, row.event)];
    }
    var found := FindCategory(cache[row.event], row.category);
    if found.None? {
      return Some(NoCategory(k)), price, cache, count;
    }
    count := count[row.category := (if row.category in count then count[row.category] else 0) + 1];
    if count[row.category] > found.value.maxPerOrder {
      return Some(TooMany(k)), price, cache, count;
    }
    return None, found.value.price, cache, count;
  }

  /** The first n items have passed, and this is what has been accumulated. */
  ghost predicate Progress(q: Request, n: nat, items: seq<Item>, subtotal: Money, tightest: Option<Time>) {
    && n <= |q.wants|
    && (forall k | 0 <= k < n :: q.Problem(k).None? && q.Has(k))
    && items == q.Lines(n)
    && (n > 0 ==> subtotal == Money(Wrap64(q.Sum(n)), q.PriceAt(0).currency))
    && tightest == q.Tightest(n)
  }

  lemma Advance(q: Request, n: nat, items: seq<Item>, subtotal: Money, tightest: Option<Time>)
    requires Progress(q, n, items, subtotal, tightest)
    requires n < |q.wants| && q.Problem(n).None?
    ensures
      var sum := if n == 0 then Some(q.PriceAt(n)) else AddMoney(subtotal, q.PriceAt(n));
      && sum.Some?
      && Progress(q, n + 1, items + [Item(q.wants[n].row, q.wants[n].token, q.PriceAt(n))], sum.value,
                  Earlier(tightest, q.RowAt(n).holdExpiresAt))
  {
    hide Find;
    if n > 0 { WrapAdds(q.Sum(n), q.PriceAt(n).cents); }
    assert q.Sum(n + 1) == q.Sum(n) + q.PriceAt(n).cents;
    assert q.Tightest(n + 1) == Earlier(tightest, q.RowAt(n).holdExpiresAt);
    assert q.Lines(n + 1) == q.Lines(n) + [Item(q.wants[n].row, q.wants[n].token, q.PriceAt(n))];
  }

  /** The loop over the items: it stops at the first problem, and otherwise has priced the order. */
  method PriceItems(q: Request)
    returns (problem: Option<Refusal>, items: seq<Item>, subtotal: Money, tightest: Option<Time>)
    requires q.wants != []
    ensures problem.Some? ==> exists k :: q.FirstProblem(k, problem.value)
    ensures problem.None? ==> q.Acceptable() && Progress(q, |q.wants|, items, subtotal, tightest)
  {
    hide Wrap64, Find, AddMoney;
    var cache: map<Id, seq<Category>> := map[];
    var count: map<Id, nat> := map[];
    items, subtotal, tightest, problem := [], Money(0, ""), None, None;
    for i := 0 to |q.wants|
      invariant Progress(q, i, items, subtotal, tightest)
      invariant CacheOk(q, cache) && CountOk(q, count, i)
      invariant problem == None
    {
      hide CacheOk, CountOk;
      var price;
      problem, price, cache, count := CheckItem(q, i, cache, count);
      if problem.None? && i > 0 && subtotal.currency != price.currency {
        problem := Some(MixedCurrency(i));
      }
      if problem.Some? {
        assert q.FirstProblem(i, problem.value);
        return;
      }
      Advance(q, i, items, subtotal, tightest);
      tightest := Earlier(tightest, q.view(i).rows[q.wants[i].row].holdExpiresAt);
      subtotal := if i == 0 then price else AddMoney(subtotal, price).value;
      items := items + [Item(q.wants[i].row, q.wants[i].token, price)];
    }
  }

  ghost predicate KeyUsed(orders: map<Id, Order>, tenant: Id, key: string) {
    exists o :: KeyOf(orders, tenant, key, o)
  }

  /** The call gets as far as the INSERT. */
  ghost predicate Reaches(orders: map<Id, Order>, q: Request, key: string, lookupFails: bool) {
    q.wants != [] && !lookupFails && !KeyUsed(orders, q.tenant, key) && q.Acceptable()
  }

  /** A unique key of the orders table stands in the way. */
  ghost predicate KeysCollide(orders: map<Id, Order>, q: Request, key: string, newId: Id) {
    newId in orders || KeyUsed(orders, q.tenant, key)
  }

  /** The tables' constraints let the order in. */
  ghost predicate Insertable(orders: map<Id, Order>, q: Request, key: string, newId: Id) {
    && !KeysCollide(orders, q, key, newId)
    && Admissible(q.Lines(|q.wants|), Money(Wrap64(q.Sum(|q.wants|)), q.PriceAt(0).currency))
  }

  lemma ProblemIsOfAnItem(q: Request, why: Refusal)
    requires exists k :: q.FirstProblem(k, why)
    ensures !q.Acceptable()
    ensures !why.EmptyOrder? && !why.LookupFailed? && !why.Conflict? && !why.CheckViolated? && !why.InsertFailed?
  {
    hide Find;
    var k :| q.FirstProblem(k, why);
    assert q.Problem(k) == Some(why);
  }

  /**
   The whole call, in the order it decides: an empty request, a key already used, then the items,
   then the INSERT, before which others may have committed `arrivals`. A new order is persisted
   exactly when every item is acceptable and the constraints let it in at that moment; otherwise
   the call writes nothing.
   */
  method Create(db: Database, q: Request, user: Id, key: string, newId: Id, arrivals: map<Id, Order>,
                lookupFails: bool, insertFails: bool)
    returns (a: Answer)
    modifies db`orders
    ensures a.Existing? <==> q.wants != [] && !lookupFails && KeyUsed(old(db.orders), q.tenant, key)
    ensures a.Existing? ==> KeyOf(db.orders, q.tenant, key, a.order)
    ensures a.New? <==>
      && Reaches(old(db.orders), q, key, lookupFails)
      && Insertable(old(db.orders) + arrivals, q, key, newId) && !insertFails
    ensures a.New? ==>
      && a.order == newId && (forall k | 0 <= k < |q.wants| :: q.Has(k))
      && db.orders == (old(db.orders) + arrivals)[newId := Priced(q, user, key)]
    ensures a.New? ==>
      var o := db.orders[newId];
      o.tenant == q.tenant && o.user == user && o.key == key && o.status == Pending && |o.items| == |q.wants|
    ensures !a.New? ==>
      db.orders == if Reaches(old(db.orders), q, key, lookupFails) then old(db.orders) + arrivals else old(db.orders)
    ensures a == Refused(EmptyOrder) <==> q.wants == []
    ensures a == Refused(LookupFailed) <==> q.wants != [] && lookupFails
    ensures a.Refused? && q.wants != [] && !lookupFails && !q.Acceptable() ==> exists k :: q.FirstProblem(k, a.why)
    ensures a == Refused(InsertFailed) <==> Reaches(old(db.orders), q, key, lookupFails) && insertFails
    ensures a == Refused(Conflict) <==>
      && Reaches(old(db.orders), q, key, lookupFails) && !insertFails
      && Wrap64(q.Sum(|q.wants|)) >= 0 && KeysCollide(old(db.orders) + arrivals, q, key, newId)
    ensures a == Refused(CheckViolated) <==>
      && Reaches(old(db.orders), q, key, lookupFails) && !insertFails
      && !Insertable(old(db.orders) + arrivals, q, key, newId)
      && (Wrap64(q.Sum(|q.wants|)) < 0 || !KeysCollide(old(db.orders) + arrivals, q, key, newId))
  {
    hide Wrap64;
    if q.wants == [] { return Refused(EmptyOrder); }
    if lookupFails { return Refused(LookupFailed); }
    if o :| o in db.orders && KeyOf(db.orders, q.tenant, key, o) { return Existing(o); }
    var problem, items, subtotal, tightest := PriceItems(q);
    if problem.Some? {
      ProblemIsOfAnItem(q, problem.value);
      return Refused(problem.value);
    }
    var fees := Money(0, subtotal.currency);
    var total := AddMoney(subtotal, fees).value;
    db.orders := db.orders + arrivals;
    if insertFails { return Refused(InsertFailed); }
    if total.cents < 0 { return Refused(CheckViolated); }
    if newId in db.orders { return Refused(Conflict); }
    if o :| o in db.orders && KeyOf(db.orders, q.tenant, key, o) { return Refused(Conflict); }
    if !Admissible(items, total) { return Refused(CheckViolated); }
    db.orders := db.orders[newId := Order(q.tenant, user, key, Pending, items, total, tightest)];
    return New(newId);
  }

  // ---- what a persisted order is ----

  lemma Passed(q: Request, k: nat)
    requires q.Acceptable() && k < |q.wants|
    ensures q.Has(k) && Carries(q.view(k), q.tenant, q.wants[k].row, q.wants[k].token) && !LapsedAt(q.RowAt(k), q.clock(k))
    ensures q.CategoryAt(k).Some? && q.PriceAt(k) == q.CategoryAt(k).value.price
    ensures q.PriceAt(k).currency == q.PriceAt(0).currency
    ensures q.CountOf(k + 1, q.RowAt(k).category) <= q.CategoryAt(k).value.maxPerOrder
  {
    assert q.Problem(k).None?;
  }

  lemma {:induction false} SumOfPricesNotNegative(q: Request, n: nat)
    requires n <= |q.wants| && forall k | 0 <= k < n :: q.PriceAt(k).cents >= 0
    ensures q.Sum(n) >= 0
  {
    if n > 0 { SumOfPricesNotNegative(q, n - 1); }
  }

  /** Prices being non-negative, the persisted total is the exact sum if and only if the sum fits in an int64. */
  lemma TotalIsExactIffItFits(q: Request, user: Id, key: string)
    requires q.wants != [] && q.Acceptable() && Wrap64(q.Sum(|q.wants|)) >= 0
    requires forall k | 0 <= k < |q.wants| :: q.PriceAt(k).cents >= 0
    ensures forall k | 0 <= k < |q.wants| :: q.Has(k)
    ensures Priced(q, user, key).total.cents == q.Sum(|q.wants|) <==> q.Sum(|q.wants|) < TWO_63
  {
    forall k | 0 <= k < |q.wants| { Passed(q, k); }
    SumOfPricesNotNegative(q, |q.wants|);
  }

  /** The table's CHECK stops a negative total, not one that has wrapped past 2^64: such an order is undercharged. */
  lemma UnderchargedOrderExists() returns (q: Request)
    ensures q.wants != [] && q.Acceptable() && forall k | 0 <= k < |q.wants| :: q.PriceAt(k).cents >= 0
    ensures 0 <= Wrap64(q.Sum(|q.wants|)) < q.Sum(|q.wants|)
    ensures Insertable(map[], q, "k", 5)
  {
    var r := Row(0, 0, 0, None, Held, Some(7), Some(3), Some(300));
    var c := Category(0, Money(TWO_63 - 1, "KES"), 6);
    var table := Table(map[1 := r, 2 := r.(holdToken := Some(8)), 3 := r.(holdToken := Some(9))], []);
    q := Request(_ => table, _ => 0, map[(0, 0) := [c]], 0, [Want(1, 7), Want(2, 8), Want(3, 9)], {}, {});
    assert q.CategoryAt(0) == q.CategoryAt(1) == q.CategoryAt(2) == Some(c);
    assert q.CountOf(0, 0) == 0 && q.CountOf(1, 0) == 1 && q.CountOf(2, 0) == 2 && q.CountOf(3, 0) == 3;
    assert q.Sum(0) == 0 && q.Sum(1) == TWO_63 - 1 && q.Sum(2) == 2 * (TWO_63 - 1) && q.Sum(3) == 3 * (TWO_63 - 1);
    assert Wrap64(q.Sum(3)) == TWO_63 - 3;
  }

  /** ExpiresAt is the minimum of the holds' expiries, and had not passed when that hold was read. */
  lemma {:induction false} ExpiryIsTheMinimum(q: Request, n: nat)
    requires 0 < n <= |q.wants| && q.Acceptable()
    requires forall k | 0 <= k < n :: q.Has(k) && RowCheck(q.RowAt(k))
    ensures q.Tightest(n).Some?
    ensures forall k | 0 <= k < n ::
      q.RowAt(k).holdExpiresAt.Some? && q.Tightest(n).value <= q.RowAt(k).holdExpiresAt.value
    ensures exists k :: 0 <= k < n && q.RowAt(k).holdExpiresAt == q.Tightest(n) && q.clock(k) <= q.Tightest(n).value
  {
    hide Find, Wrap64;
    HeldHasExpiry(q, n - 1);
    if n == 1 {
      assert q.Tightest(0) == None && q.Tightest(1) == q.RowAt(0).holdExpiresAt;
    } else {
      ExpiryIsTheMinimum(q, n - 1);
      var k :| 0 <= k < n - 1 && q.RowAt(k).holdExpiresAt == q.Tightest(n - 1) && q.clock(k) <= q.Tightest(n - 1).value;
      assert q.Tightest(n) == q.RowAt(n - 1).holdExpiresAt || q.Tightest(n) == q.RowAt(k).holdExpiresAt;
    }
  }

  lemma HeldHasExpiry(q: Request, k: nat)
    requires q.Acceptable() && k < |q.wants| && q.Has(k) && RowCheck(q.RowAt(k))
    ensures q.RowAt(k).holdExpiresAt.Some? && q.clock(k) <= q.RowAt(k).holdExpiresAt.value
  {
    hide Find;
    Passed(q, k);
  }

  /** Category identifiers are primary keys: one names one category, in whichever event's list it is found. */
  ghost predicate KeysUnique(catalog: Catalog, tenant: Id) {
    forall e, f, c, d | c in Listed(catalog, tenant, e) && d in Listed(catalog, tenant, f) && c.id == d.id :: c == d
  }

  lemma {:induction false} FindFinds(categories: seq<Category>, id: Id)
    ensures Find(categories, id).Some? ==> Find(categories, id).value in categories && Find(categories, id).value.id == id
    ensures Find(categories, id).None? <==> forall c | c in categories :: c.id != id
    decreases categories
  {
    if categories != [] && categories[0].id != id {
      FindFinds(categories[1..], id);
      assert categories == [categories[0]] + categories[1..];
    }
  }

  /** The category of the k-th wanted unit, as the catalog has it. */
  ghost predicate IsCategoryOf(q: Request, k: nat, c: Category) {
    q.Has(k) && c in Listed(q.catalog, q.tenant, q.RowAt(k).event) && c.id == q.RowAt(k).category
  }

  lemma CategoryIsIt(q: Request, k: nat)
    requires q.Has(k)
    ensures q.CategoryAt(k).Some? ==> IsCategoryOf(q, k, q.CategoryAt(k).value)
    ensures q.CategoryAt(k).None? <==> forall c :: !IsCategoryOf(q, k, c)
  {
    FindFinds(Listed(q.catalog, q.tenant, q.RowAt(k).event), q.RowAt(k).category);
    hide Find;
    if q.CategoryAt(k).Some? { assert IsCategoryOf(q, k, q.CategoryAt(k).value); }
    forall c | IsCategoryOf(q, k, c) ensures q.CategoryAt(k).Some? {
      assert c in Listed(q.catalog, q.tenant, q.RowAt(k).event);
    }
  }

  lemma OnlyCategory(q: Request, k: nat, c: Category)
    requires KeysUnique(q.catalog, q.tenant) && IsCategoryOf(q, k, c)
    ensures q.CategoryAt(k) == Some(c)
  {
    CategoryIsIt(q, k);
  }

  /** No category's limit is exceeded, although the code only ever compares a running count. */
  lemma {:induction false} LimitsRespected(q: Request, n: nat, k: nat)
    requires q.Acceptable() && KeysUnique(q.catalog, q.tenant)
    requires k < n <= |q.wants|
    ensures q.Has(k) && q.CategoryAt(k).Some?
    ensures q.CountOf(n, q.RowAt(k).category) <= q.CategoryAt(k).value.maxPerOrder
    decreases n
  {
    Passed(q, k);
    Passed(q, n - 1);
    if k < n - 1 {
      LimitsRespected(q, n - 1, k);
    }
    if q.RowAt(n - 1).category == q.RowAt(k).category {
      CategoryIsIt(q, k);
      CategoryIsIt(q, n - 1);
    }
    hide Find;
  }

  /** One item per wanted hold, in order, at its own category's price, and all in one currency. */
  lemma ItemsFollowTheRequest(q: Request, user: Id, key: string, k: nat)
    requires q.Acceptable() && k < |q.wants|
    ensures forall j | 0 <= j < |q.wants| :: q.Has(j)
    ensures
      var o := Priced(q, user, key);
      && |o.items| == |q.wants|
      && o.items[k].row == q.wants[k].row && o.items[k].token == q.wants[k].token
      && Carries(q.view(k), q.tenant, o.items[k].row, o.items[k].token)
      && (exists c :: c in Listed(q.catalog, q.tenant, q.RowAt(k).event) && c.id == q.RowAt(k).category
            && c.price == o.items[k].price)
      && o.items[k].price.currency == o.total.currency
  {
    forall j | 0 <= j < |q.wants| { Passed(q, j); }
    CategoryIsIt(q, k);
    assert IsCategoryOf(q, k, q.CategoryAt(k).value);
  }

  // ---- which requests are accepted ----

  /** The positions among the first n whose unit is of this category. */
  ghost function OfCategory(q: Request, n: nat, category: Id): set<nat>
    requires n <= |q.wants|
  {
    set j | 0 <= j < n && IsOf(q, j, category)
  }

  predicate IsOf(q: Request, j: nat, category: Id) {
    q.Has(j) && q.RowAt(j).category == category
  }

  lemma SizeSteps(q: Request, n: nat, category: Id)
    requires 0 < n <= |q.wants|
    ensures |OfCategory(q, n, category)| == |OfCategory(q, n - 1, category)| + if IsOf(q, n - 1, category) then 1 else 0
  {
    hide IsOf;
    assert OfCategory(q, n, category) == OfCategory(q, n - 1, category) + if IsOf(q, n - 1, category) then {n - 1} else {};
  }

  lemma {:induction false} CountIsSize(q: Request, n: nat, category: Id)
    requires n <= |q.wants|
    ensures q.CountOf(n, category) == |OfCategory(q, n, category)|
  {
    if n == 0 {
      assert OfCategory(q, 0, category) == {};
    } else {
      hide OfCategory, Find;
      CountIsSize(q, n - 1, category);
      SizeSteps(q, n, category);
    }
  }

  lemma {:induction false} CountGrows(q: Request, m: nat, n: nat, category: Id)
    requires m <= n <= |q.wants|
    ensures q.CountOf(m, category) <= q.CountOf(n, category)
    decreases n
  {
    if m < n { CountGrows(q, m, n - 1, category); }
  }

  /** The hold of the k-th wanted unit is good and its category can be looked up. */
  ghost predicate GoodHold(q: Request, k: nat) {
    && k < |q.wants| && k !in q.unreadable
    && q.wants[k].row in q.view(k).rows
    && var r := q.view(k).rows[q.wants[k].row];
       && r.tenant == q.tenant && r.status == Held && r.holdToken == Some(q.wants[k].token)
       && (r.holdExpiresAt.Some? ==> q.clock(k) <= r.holdExpiresAt.value)
       && r.event !in q.unlisted
       && exists c :: c in Listed(q.catalog, q.tenant, r.event) && c.id == r.category
  }

  /** The whole order keeps every limit: no category has more units in it than it allows. */
  ghost predicate WithinLimits(q: Request) {
    forall k: nat, c | k < |q.wants| && IsCategoryOf(q, k, c) :: |OfCategory(q, |q.wants|, c.id)| <= c.maxPerOrder
  }

  ghost predicate OneCurrency(q: Request) {
    forall k: nat, c, d | k < |q.wants| && IsCategoryOf(q, k, c) && IsCategoryOf(q, 0, d) :: c.price.currency == d.price.currency
  }

  lemma GoodHoldIs(q: Request, k: nat)
    requires k < |q.wants|
    ensures GoodHold(q, k) <==>
      && k !in q.unreadable && q.Has(k) && q.RowAt(k).status == Held && q.RowAt(k).holdToken == Some(q.wants[k].token)
      && !LapsedAt(q.RowAt(k), q.clock(k)) && q.RowAt(k).event !in q.unlisted && q.CategoryAt(k).Some?
  {
    if q.Has(k) {
      CategoryIsIt(q, k);
      hide Find;
      if q.CategoryAt(k).Some? { assert IsCategoryOf(q, k, q.CategoryAt(k).value); }
      if c :| c in Listed(q.catalog, q.tenant, q.RowAt(k).event) && c.id == q.RowAt(k).category {
        assert IsCategoryOf(q, k, c);
      }
    }
  }

  lemma AcceptedIsGood(q: Request)
    requires KeysUnique(q.catalog, q.tenant) && q.Acceptable()
    ensures forall k: nat | k < |q.wants| :: GoodHold(q, k)
    ensures WithinLimits(q) && OneCurrency(q)
  {
    hide GoodHold, Find;
    forall k: nat | k < |q.wants| ensures GoodHold(q, k) {
      assert q.Problem(k).None?;
      GoodHoldIs(q, k);
    }
    forall k: nat, c | k < |q.wants| && IsCategoryOf(q, k, c) ensures |OfCategory(q, |q.wants|, c.id)| <= c.maxPerOrder {
      OnlyCategory(q, k, c);
      LimitsRespected(q, |q.wants|, k);
      CountIsSize(q, |q.wants|, c.id);
    }
    forall k: nat, c, d | k < |q.wants| && IsCategoryOf(q, k, c) && IsCategoryOf(q, 0, d) ensures c.price.currency == d.price.currency {
      OnlyCategory(q, k, c);
      OnlyCategory(q, 0, d);
      Passed(q, k);
      Passed(q, 0);
    }
  }

  lemma GoodIsAccepted(q: Request, k: nat)
    requires KeysUnique(q.catalog, q.tenant) && k < |q.wants|
    requires GoodHold(q, k) && GoodHold(q, 0) && WithinLimits(q) && OneCurrency(q)
    ensures q.Problem(k).None?
  {
    GoodHoldIs(q, k);
    GoodHoldIs(q, 0);
    CategoryIsIt(q, k);
    CategoryIsIt(q, 0);
    hide GoodHold, Find;
    var c := q.CategoryAt(k).value;
    assert IsCategoryOf(q, k, c) && IsCategoryOf(q, 0, q.CategoryAt(0).value);
    CountGrows(q, k + 1, |q.wants|, c.id);
    CountIsSize(q, |q.wants|, c.id);
  }

  /**
   Exactly which requests pass: every hold is good, the order as a whole exceeds no category's
   limit, an order of exactly the limit included, and all prices are in one currency.
   */
  lemma AcceptedIffGood(q: Request)
    requires KeysUnique(q.catalog, q.tenant)
    ensures q.Acceptable() <==>
      (forall k: nat | k < |q.wants| :: GoodHold(q, k)) && WithinLimits(q) && OneCurrency(q)
  {
    if q.Acceptable() { AcceptedIsGood(q); }
    hide WithinLimits, OneCurrency, GoodHold;
    if (forall k: nat | k < |q.wants| :: GoodHold(q, k)) && WithinLimits(q) && OneCurrency(q) {
      forall k | 0 <= k < |q.wants| ensures q.Problem(k).None? { GoodIsAccepted(q, k); }
    }
  }
}
