/**
 `CreateOrder` as code refines the interleaved protocol: with arbitrary actions of others between
 its statements, each read seeing the table and the clock of its own moment, the call is one
 CreateStart, one CreateRead per item and one CreateCommit, and persists the order it describes.
 */
module CreateRefinement {
  import opened Types
  import opened SeatTable
  import opened Purchase
  import opened Guarantees
  import opened CreateOrder
  import Pricing

  // ---- others leave the call alone ----

  ghost predicate NoneTouches(run: seq<Action>, call: nat) {
    forall k | 0 <= k < |run| :: !Touches(run[k], call)
  }

  ghost predicate Stands(s: State, call: nat, c: Call) {
    call < s.nextCall && call in s.calls && s.calls[call] == c && c.Creating?
  }

  lemma StepStands(s: State, a: Action, call: nat, c: Call)
    requires Stands(s, call, c) && !Touches(a, call)
    ensures Stands(Step(s, a), call, c)
  {
    hide Step;
    StepKeepsCreating(s, a, call);
  }

  lemma {:induction false} ExecStands(s: State, run: seq<Action>, call: nat, c: Call)
    requires Stands(s, call, c) && NoneTouches(run, call)
    ensures Stands(Exec(s, run), call, c)
    decreases run
  {
    hide Step, Stands, Touches;
    if run != [] {
      StepStands(s, run[0], call, c);
      assert NoneTouches(run[1..], call);
      ExecStands(Step(s, run[0]), run[1..], call, c);
    }
  }

  // ---- the reads ----

  /** The first n reads, each after whatever the others do meanwhile. */
  function Reads(q: Request, call: nat, others: nat -> seq<Action>, n: nat): seq<Action>
    requires n <= |q.wants|
  {
    if n == 0 then [] else Reads(q, call, others, n - 1) + others(n - 1) + [CreateRead(call, q.PriceAt(n - 1))]
  }

  /** The state the k-th read, or after the last one the INSERT, finds. */
  function Found(s: State, q: Request, call: nat, others: nat -> seq<Action>, k: nat): State
    requires k <= |q.wants|
  {
    Exec(Exec(s, Reads(q, call, others, k)), others(k))
  }

  /** The request's view of the table and the clock is what its reads find. */
  ghost predicate Sees(q: Request, s: State, call: nat, others: nat -> seq<Action>) {
    forall k: nat | k < |q.wants| ::
      q.view(k) == Found(s, q, call, others, k).table && q.clock(k) == Found(s, q, call, others, k).now
  }

  ghost predicate OthersKeepOut(q: Request, call: nat, others: nat -> seq<Action>) {
    forall k: nat | k <= |q.wants| :: NoneTouches(others(k), call)
  }

  ghost predicate PassedBefore(q: Request, n: nat) {
    n <= |q.wants| && forall k | 0 <= k < n :: q.Problem(k).None? && q.Has(k)
  }

  /** The call once n items have passed. */
  ghost function After(q: Request, user: Id, key: string, n: nat): Call
    requires PassedBefore(q, n)
  {
    Creating(q.tenant, user, key, q.wants, q.Lines(n),
             if n == 0 then Money(0, "") else Money(Wrap64(q.Sum(n)), q.PriceAt(0).currency), q.Tightest(n))
  }

  /** One more acceptable item is one more line, price and expiry, exactly as the loop adds them. */
  lemma OneMoreLine(q: Request, user: Id, key: string, n: nat)
    requires PassedBefore(q, n) && PassedBefore(q, n + 1)
    ensures Extended(After(q, user, key, n), q.RowAt(n).holdExpiresAt, q.PriceAt(n)) == Some(After(q, user, key, n + 1))
  {
    hide Find, Wrap64;
    assert q.Problem(n).None?;
    WrapAdds(q.Sum(n), q.PriceAt(n).cents);
    WrapOnce(q.PriceAt(n).cents);
    assert q.Sum(n + 1) == q.Sum(n) + q.PriceAt(n).cents;
    assert q.Tightest(n + 1) == Earlier(q.Tightest(n), q.RowAt(n).holdExpiresAt);
    assert q.Lines(n + 1) == q.Lines(n) + [Item(q.wants[n].row, q.wants[n].token, q.PriceAt(n))];
  }

  lemma WrapOnce(n: Int64)
    ensures Wrap64(n) == n && Wrap64(0 + n) == n
  {
  }

  lemma ReadAdvances(t: State, q: Request, call: nat, user: Id, key: string, n: nat)
    requires PassedBefore(q, n) && PassedBefore(q, n + 1)
    requires q.view(n) == t.table && q.clock(n) == t.now
    requires Stands(t, call, After(q, user, key, n))
    ensures Stands(DoCreateRead(t, call, q.PriceAt(n)), call, After(q, user, key, n + 1))
  {
    hide Find, Extended, Wrap64;
    OneMoreLine(q, user, key, n);
    assert q.Problem(n).None?;
  }

  lemma RunsRead(s: State, call: nat, price: Money)
    ensures Exec(s, [CreateRead(call, price)]) == DoCreateRead(s, call, price)
  {
    hide Exec, DoCreateRead, DoHold, DoRelease, DoSellUnit, DoVoid, DoCreateStart, DoCreateCommit, DoAuthorizeStart,
      DoAuthorizeRecord, DoAuthorizeFinish, DoConfirmStart, DoConfirmLoad, DoConfirmSell, DoConfirmCommit,
      DoConfirmCapture, DoRefundSend, DoRefundNote, DoRefundClose, DoCrash, DoDispatch, Insert;
    ExecOne(s, CreateRead(call, price));
  }

  lemma ReadsStep(s: State, q: Request, call: nat, others: nat -> seq<Action>, n: nat)
    requires 0 < n <= |q.wants|
    ensures Exec(s, Reads(q, call, others, n)) == DoCreateRead(Found(s, q, call, others, n - 1), call, q.PriceAt(n - 1))
  {
    hide Exec, Step, DoCreateRead;
    var before := Reads(q, call, others, n - 1);
    ExecConcat(s, before + others(n - 1), [CreateRead(call, q.PriceAt(n - 1))]);
    ExecConcat(s, before, others(n - 1));
    RunsRead(Found(s, q, call, others, n - 1), call, q.PriceAt(n - 1));
  }

  /** As long as no item has a problem, the reads accumulate what the loop accumulates. */
  lemma {:induction false} ReadsAccumulate(s: State, q: Request, call: nat, others: nat -> seq<Action>,
                                           user: Id, key: string, n: nat)
    requires PassedBefore(q, n) && Sees(q, s, call, others) && OthersKeepOut(q, call, others)
    requires PassedBefore(q, 0) && Stands(s, call, After(q, user, key, 0))
    ensures Stands(Found(s, q, call, others, n), call, After(q, user, key, n))
    decreases n
  {
    hide Exec, Step, DoCreateRead, Stands, After, Sees, Reads;
    if n == 0 {
      NoReads(s, q, call, others);
    } else {
      ReadsAccumulate(s, q, call, others, user, key, n - 1);
      SeesAt(q, s, call, others, n - 1);
      ReadAdvances(Found(s, q, call, others, n - 1), q, call, user, key, n - 1);
      ReadsStep(s, q, call, others, n);
    }
    ExecStands(Exec(s, Reads(q, call, others, n)), others(n), call, After(q, user, key, n));
  }

  lemma SeesAt(q: Request, s: State, call: nat, others: nat -> seq<Action>, k: nat)
    requires Sees(q, s, call, others) && k < |q.wants|
    ensures q.view(k) == Found(s, q, call, others, k).table && q.clock(k) == Found(s, q, call, others, k).now
  {
  }

  lemma NoReads(s: State, q: Request, call: nat, others: nat -> seq<Action>)
    ensures Exec(s, Reads(q, call, others, 0)) == s
  {
  }

  // ---- the whole call ----

  function CallRun(q: Request, call: nat, user: Id, key: string, newId: Id, others: nat -> seq<Action>): seq<Action> {
    [CreateStart(q.tenant, user, key, q.wants)] + Reads(q, call, others, |q.wants|) + others(|q.wants|) + [CreateCommit(call, newId)]
  }

  lemma Starts(s: State, q: Request, user: Id, key: string)
    requires q.wants != [] && !KeyTaken(s, q.tenant, key)
    ensures
      var t := DoCreateStart(s, q.tenant, user, key, q.wants);
      PassedBefore(q, 0) && Stands(t, s.nextCall, After(q, user, key, 0))
  {
    assert q.Lines(0) == [];
  }

  lemma KeyTakenIsUsed(t: State, tenant: Id, key: string)
    ensures KeyTaken(t, tenant, key) <==> KeyUsed(t.orders, tenant, key)
  {
    if KeyTaken(t, tenant, key) {
      var o :| o in t.orders && t.orders[o].tenant == tenant && t.orders[o].key == key;
      assert KeyOf(t.orders, tenant, key, o);
    }
  }

  lemma Commits(t: State, q: Request, call: nat, user: Id, key: string, newId: Id)
    requires PassedBefore(q, |q.wants|) && q.wants != []
    requires Stands(t, call, After(q, user, key, |q.wants|))
    ensures
      DoCreateCommit(t, call, newId).orders
      == if Insertable(t.orders, q, key, newId) then t.orders[newId := Priced(q, user, key)] else t.orders
  {
    hide Wrap64;
    KeyTakenIsUsed(t, q.tenant, key);
    hide KeyTaken, KeyUsed;
  }

  lemma RunsEnds(s: State, q: Request, call: nat, user: Id, key: string, newId: Id)
    ensures Exec(s, [CreateStart(q.tenant, user, key, q.wants)]) == DoCreateStart(s, q.tenant, user, key, q.wants)
    ensures Exec(s, [CreateCommit(call, newId)]) == DoCreateCommit(s, call, newId)
  {
    hide Exec, DoCreateRead, DoHold, DoRelease, DoSellUnit, DoVoid, DoCreateStart, DoCreateCommit, DoAuthorizeStart,
      DoAuthorizeRecord, DoAuthorizeFinish, DoConfirmStart, DoConfirmLoad, DoConfirmSell, DoConfirmCommit,
      DoConfirmCapture, DoRefundSend, DoRefundNote, DoRefundClose, DoCrash, DoDispatch, Insert;
    ExecOne(s, CreateStart(q.tenant, user, key, q.wants));
    ExecOne(s, CreateCommit(call, newId));
  }

  /**
   An acceptable request, whatever others do between its statements, is a run that ends with
   exactly the write the method makes: the described order if the constraints admit it among the
   orders there are at that moment, otherwise none.
   */
  lemma CreateIsARun(s: State, q: Request, user: Id, key: string, newId: Id, others: nat -> seq<Action>)
    requires q.wants != [] && !KeyTaken(s, q.tenant, key) && q.Acceptable()
    requires Sees(q, DoCreateStart(s, q.tenant, user, key, q.wants), s.nextCall, others)
    requires OthersKeepOut(q, s.nextCall, others)
    ensures
      var before := Found(DoCreateStart(s, q.tenant, user, key, q.wants), q, s.nextCall, others, |q.wants|);
      && PassedBefore(q, |q.wants|)
      && Exec(s, CallRun(q, s.nextCall, user, key, newId, others)).orders
         == if Insertable(before.orders, q, key, newId) then before.orders[newId := Priced(q, user, key)] else before.orders
  {
    hide Exec, Step, DoCreateStart, DoCreateCommit, Stands, Insertable, After, Sees, Reads;
    var call, n := s.nextCall, |q.wants|;
    var start, middle, last := [CreateStart(q.tenant, user, key, q.wants)], Reads(q, call, others, n), [CreateCommit(call, newId)];
    var s1 := DoCreateStart(s, q.tenant, user, key, q.wants);
    forall k | 0 <= k < n ensures q.Problem(k).None? && q.Has(k) { Passed(q, k); }
    Starts(s, q, user, key);
    ReadsAccumulate(s1, q, call, others, user, key, n);
    var before := Found(s1, q, call, others, n);
    Commits(before, q, call, user, key, newId);
    RunsEnds(s, q, call, user, key, newId);
    RunsEnds(before, q, call, user, key, newId);
    ExecConcat(s, start + middle + others(n), last);
    ExecConcat(s, start + middle, others(n));
    ExecConcat(s, start, middle);
  }

  /**
   A retry and its key: a call that began with the key free is refused for the key exactly when
   another order has taken it by the time of the INSERT; it then gets the conflict and not that order.
   */
  lemma RefusedForKeyIffTaken(s: State, q: Request, user: Id, key: string, newId: Id, others: nat -> seq<Action>)
    requires q.wants != [] && !KeyTaken(s, q.tenant, key) && q.Acceptable()
    requires Sees(q, DoCreateStart(s, q.tenant, user, key, q.wants), s.nextCall, others)
    requires OthersKeepOut(q, s.nextCall, others)
    requires
      var before := Found(DoCreateStart(s, q.tenant, user, key, q.wants), q, s.nextCall, others, |q.wants|);
      && newId !in before.orders
      && Admissible(q.Lines(|q.wants|), Money(Wrap64(q.Sum(|q.wants|)), q.PriceAt(0).currency))
    ensures
      var before := Found(DoCreateStart(s, q.tenant, user, key, q.wants), q, s.nextCall, others, |q.wants|);
      var t := Exec(s, CallRun(q, s.nextCall, user, key, newId, others));
      && (newId !in t.orders <==> KeyUsed(before.orders, q.tenant, key))
      && (KeyUsed(before.orders, q.tenant, key) ==> t.orders == before.orders)
  {
    hide Exec, Step, DoCreateStart, Sees, Reads, OthersKeepOut, KeyUsed, Admissible, Wrap64;
    CreateIsARun(s, q, user, key, newId, others);
  }

  /** A problem of the hold or of the currency ends the call at that very read, in the protocol as in the code. */
  lemma RefusalEndsTheCall(s: State, q: Request, call: nat, user: Id, key: string, k: nat, why: Refusal, others: nat -> seq<Action>)
    requires PassedBefore(q, 0) && Stands(s, call, After(q, user, key, 0))
    requires Sees(q, s, call, others) && OthersKeepOut(q, call, others)
    requires FailsAt(q, k, why)
    ensures
      var t := Exec(s, Reads(q, call, others, k + 1));
      call !in t.calls && SameBooks(Found(s, q, call, others, k), t)
  {
    hide Exec, Step, Stands, DoCreateRead, After, Sees, Reads;
    SeesAt(q, s, call, others, k);
    ReadsAccumulate(s, q, call, others, user, key, k);
    ReadsStep(s, q, call, others, k + 1);
    BadRead(Found(s, q, call, others, k), q, call, user, key, k, why);
  }

  /** The first problem is at item k, and it is one of the hold or of the currency. */
  ghost predicate FailsAt(q: Request, k: nat, why: Refusal) {
    && PassedBefore(q, k) && k < |q.wants| && q.Problem(k) == Some(why)
    && (why.MissingUnit? || why.NotHeld? || why.HoldExpired? || why.MixedCurrency?)
  }

  lemma BadRead(t: State, q: Request, call: nat, user: Id, key: string, k: nat, why: Refusal)
    requires FailsAt(q, k, why)
    requires q.view(k) == t.table && q.clock(k) == t.now
    requires Stands(t, call, After(q, user, key, k))
    ensures call !in DoCreateRead(t, call, q.PriceAt(k)).calls
  {
    hide Find, Wrap64;
  }

  // ---- the total by the items ----

  lemma {:induction false} SumIsOfTheLines(q: Request, n: nat)
    requires n <= |q.wants|
    ensures Pricing.PriceSum(q.Lines(n)) == q.Sum(n)
  {
    if n > 0 {
      SumIsOfTheLines(q, n - 1);
      assert q.Lines(n)[..n - 1] == q.Lines(n - 1);
    }
  }

  /** The order the method persists costs the sum of its own items' prices, as int64 adds them. */
  lemma TotalIsOfItsItems(q: Request, user: Id, key: string)
    requires q.Acceptable() && forall k | 0 <= k < |q.wants| :: q.Has(k)
    ensures Priced(q, user, key).total.cents == Wrap64(Pricing.PriceSum(Priced(q, user, key).items))
  {
    SumIsOfTheLines(q, |q.wants|);
  }
}
