/** How long a row stays pending: a bound for every run, and the exact moment where it can be told. */
module OutboxDrains {
  import opened Types
  import opened Outbox
  import opened OutboxOrder

  /** The row is pending and not in the open batch. */
  predicate Waiting(s: State, x: nat) {
    IsPending(s.rows, x) && x !in s.batch
  }

  predicate HasLeft(s: State, x: nat) {
    x < |s.rows| && s.rows[x].status != Pending
  }

  /** The row has been handled or is about to be. */
  predicate Taken(s: State, x: nat) {
    HasLeft(s, x) || x in s.batch
  }

  /** The waiting rows that may be listed before x. */
  ghost function Ahead(s: State, x: nat): set<nat> {
    set y | y in PendingSet(s.rows) && y !in s.batch && y != x && Created(s.rows, y) <= Created(s.rows, x)
  }

  /** No mark is lost, no batch abandoned, and every listing asks for at least `batch` rows. */
  ghost predicate Steady(a: Action, batch: nat) {
    MarksWork(a) && !a.Abandon? && (a.List? ==> a.limit >= batch)
  }

  ghost predicate SteadyRun(run: seq<Action>, batch: nat) {
    forall k | 0 <= k < |run| :: Steady(run[k], batch)
  }

  // ---- once taken, a row leaves ----

  lemma StepStaysTaken(s: State, a: Action, x: nat)
    requires BatchOk(s) && Taken(s, x) && Steady(a, 0)
    ensures Taken(Step(s, a), x)
  {
    hide Passed, IsBatch;
    if a.Handle? && s.batch != [] {
      Tail(s);
      HandleRowEffect(s, a.reply, x);
    }
  }

  lemma {:induction false} StaysTaken(s: State, run: seq<Action>, x: nat)
    requires BatchOk(s) && Taken(s, x) && SteadyRun(run, 0)
    ensures Taken(Exec(s, run), x)
    decreases run
  {
    hide Step, Taken, BatchOk, Steady;
    if run != [] {
      StepKeepsBatch(s, run[0]);
      StepStaysTaken(s, run[0], x);
      assert SteadyRun(run[1..], 0);
      StaysTaken(Step(s, run[0]), run[1..], x);
    }
  }

  // ---- what one action does to those ahead ----

  lemma EnqueueDelays(s: State, user: Id, createdAt: Time, x: nat)
    requires BatchOk(s) && Waiting(s, x)
    ensures
      var t := DoEnqueue(s, user, createdAt);
      && Waiting(t, x) && Created(t.rows, x) == Created(s.rows, x)
      && |Ahead(t, x)| == |Ahead(s, x)| + if createdAt <= Created(s.rows, x) then 1 else 0
  {
    hide Passed;
    var t, n := DoEnqueue(s, user, createdAt), |s.rows|;
    forall y: nat | y < n ensures Created(t.rows, y) == Created(s.rows, y) && (IsPending(t.rows, y) <==> IsPending(s.rows, y)) {
      EnqueueRow(s, user, createdAt, y);
    }
    assert n !in s.batch by {
      forall k | 0 <= k < |s.batch| ensures s.batch[k] < n { assert IsPending(s.rows, s.batch[k]); }
    }
    assert t.batch == s.batch && |t.rows| == n + 1 && IsPending(t.rows, n) && Created(t.rows, n) == createdAt;
    hide DoEnqueue;
    forall y: nat ensures y in PendingSet(t.rows) <==> IsPending(t.rows, y) {}
    forall y: nat ensures y in PendingSet(s.rows) <==> IsPending(s.rows, y) {}
    hide PendingSet;
    assert Ahead(t, x) == Ahead(s, x) + (if createdAt <= Created(s.rows, x) then {n} else {});
  }

  function Members(ids: seq<nat>): set<nat> {
    set k | 0 <= k < |ids| :: ids[k]
  }

  lemma {:induction false} DistinctSize(ids: seq<nat>)
    requires Distinct(ids)
    ensures |Members(ids)| == |ids|
    decreases ids
  {
    if ids != [] {
      var k := |ids| - 1;
      DistinctSize(ids[..k]);
      assert Members(ids) == Members(ids[..k]) + {ids[k]};
    }
  }

  lemma ListedAreAhead(s: State, a: Action, x: nat)
    requires IsList(s, a) && Waiting(s, x) && x !in a.listed
    ensures Members(a.listed) <= Ahead(s, x) && |Members(a.listed)| == a.limit
  {
    DistinctSize(a.listed);
    forall y | y in Members(a.listed) ensures y in Ahead(s, x) {
      var k :| 0 <= k < |a.listed| && a.listed[k] == y;
      assert IsPending(s.rows, a.listed[k]);
    }
  }

  /** A listing that leaves x out takes a whole batch of rows ahead of it. */
  lemma ListAdvances(s: State, a: Action, x: nat)
    requires IsList(s, a) && Waiting(s, x) && x !in a.listed
    ensures Waiting(Step(s, a), x) && |Ahead(Step(s, a), x)| + a.limit == |Ahead(s, x)|
  {
    var t, m := Step(s, a), Members(a.listed);
    ListedAreAhead(s, a, x);
    assert t == s.(batch := a.listed) && s.batch == [];
    hide Step, IsList;
    forall y ensures y in m <==> y in a.listed {}
    assert Ahead(t, x) == Ahead(s, x) - m;
  }

  lemma HandleWaits(s: State, reply: Reply, x: nat)
    requires BatchOk(s) && Waiting(s, x) && reply.marked
    ensures
      var t := DoHandle(s, reply);
      Waiting(t, x) && Ahead(t, x) == Ahead(s, x) && Created(t.rows, x) == Created(s.rows, x)
  {
    if s.batch != [] {
      var t := DoHandle(s, reply);
      Tail(s);
      assert t.batch == s.batch[1..] && s.batch[0] in s.batch;
      forall y ensures |t.rows| == |s.rows| && Created(t.rows, y) == Created(s.rows, y) && (IsPending(t.rows, y) <==> IsPending(s.rows, y) && y != s.batch[0]) {
        HandleRowEffect(s, reply, y);
      }
      hide DoHandle;
      forall y: nat ensures y in PendingSet(t.rows) <==> IsPending(t.rows, y) {}
      forall y: nat ensures y in PendingSet(s.rows) <==> IsPending(s.rows, y) {}
      hide PendingSet;
    }
  }

  /** How much an action adds to those ahead of a row created at `at`. */
  function Adds(a: Action, at: Time): nat {
    if a.Enqueue? && a.createdAt <= at then 1 else 0
  }

  /** Either x is taken, or those ahead of it change by exactly the arrivals and the listings. */
  lemma StepMovesUp(s: State, a: Action, x: nat)
    requires BatchOk(s) && Waiting(s, x) && Steady(a, 0)
    ensures
      var t := Step(s, a);
      if IsList(s, a) && x in a.listed then Taken(t, x)
      else
        && Waiting(t, x) && Created(t.rows, x) == Created(s.rows, x)
        && |Ahead(t, x)| + (if IsList(s, a) then a.limit else 0) == |Ahead(s, x)| + Adds(a, Created(s.rows, x))
  {
    hide Ahead, DoEnqueue, DoHandle, Passed;
    match a
    case Enqueue(user, createdAt) => EnqueueDelays(s, user, createdAt, x);
    case Handle(reply) => HandleWaits(s, reply, x);
    case List(limit, listed) =>
      if IsList(s, a) && x !in listed { ListAdvances(s, a, x); }
      if IsList(s, a) { assert Created(Step(s, a).rows, x) == Created(s.rows, x); }
    case Abandon =>
  }

  // ---- whole runs ----

  /** The ticks of a run, by their listings. */
  ghost function Lists(s: State, run: seq<Action>): nat
    decreases run
  {
    if run == [] then 0 else (if IsList(s, run[0]) then 1 else 0) + Lists(Step(s, run[0]), run[1..])
  }

  /** The rows a run enqueues that are not newer than `at`. */
  function Older(run: seq<Action>, at: Time): nat {
    if run == [] then 0 else Adds(run[0], at) + Older(run[1..], at)
  }

  lemma OneMoreTime(batch: nat, n: nat)
    ensures batch * (1 + n) == batch + batch * n && batch * (0 + n) == batch * n
  {
  }

  lemma SteadyIsSteady(run: seq<Action>, batch: nat)
    requires SteadyRun(run, batch)
    ensures SteadyRun(run, 0) && (run != [] ==> Steady(run[0], 0) && Steady(run[0], batch) && SteadyRun(run[1..], batch))
  {
    forall k | 0 <= k < |run| ensures Steady(run[k], 0) { assert Steady(run[k], batch); }
  }

  lemma {:induction false} IsTaken(s: State, later: seq<Action>, x: nat, batch: nat)
    requires BatchOk(s) && Waiting(s, x) && SteadyRun(later, batch)
    requires |Ahead(s, x)| + Older(later, Created(s.rows, x)) < batch * Lists(s, later)
    ensures Taken(Exec(s, later), x)
    decreases later
  {
    hide BatchOk, Waiting, Ahead, Steady, Taken, IsBatch, SteadyRun;
    SteadyIsSteady(later, batch);
    if later != [] {
      var a, rest := later[0], later[1..];
      var t := Step(s, a);
      OneMoreTime(batch, Lists(t, rest));
      StepKeepsBatch(s, a);
      StepMovesUp(s, a, x);
      SteadyLimit(a, batch);
      hide Step;
      SteadyIsSteady(rest, batch);
      if a.List? && IsList(s, a) && x in a.listed {
        StaysTaken(t, rest, x);
      } else {
        IsTaken(t, rest, x, batch);
      }
    }
  }

  lemma SteadyLimit(a: Action, batch: nat)
    requires Steady(a, batch)
    ensures a.List? ==> a.limit >= batch
  {
  }

  lemma Ceiling(n: nat, batch: nat, ticks: nat)
    requires batch > 0 && ticks >= (n + batch - 1) / batch
    ensures n <= batch * ticks
  {
    var q := (n + batch - 1) / batch;
    assert n + batch - 1 == batch * q + (n + batch - 1) % batch;
    assert batch * q <= batch * ticks;
  }

  lemma {:induction false} SubsetSize(a: set<nat>, b: set<nat>)
    requires a <= b
    ensures |a| <= |b|
  {
    if a != {} {
      var x :| x in a;
      SubsetSize(a - {x}, b - {x});
    }
  }

  lemma AheadIsLess(s: State, x: nat)
    requires Waiting(s, x)
    ensures |Ahead(s, x)| < |PendingSet(s.rows)|
  {
    var rest := PendingSet(s.rows) - {x};
    assert Ahead(s, x) <= rest;
    SubsetSize(Ahead(s, x), rest);
  }

  lemma TakenHasLeft(s: State, x: nat)
    requires Taken(s, x) && s.batch == []
    ensures HasLeft(s, x)
  {
  }

  lemma TakenOrWaiting(s: State, x: nat)
    requires x < |s.rows|
    ensures Taken(s, x) || Waiting(s, x)
  {
  }

  /**
   From any state with n rows pending, and with `late` rows enqueued meanwhile that are not newer
   than x, row x has left 'pending' after ceil((n + late) / batch) ticks, once the last of them has
   handled its batch. Rows arrive at any moment.
   */
  lemma Drains(s: State, later: seq<Action>, batch: nat, x: nat)
    requires BatchOk(s) && batch > 0 && SteadyRun(later, batch) && x < |s.rows|
    requires Lists(s, later) >= (|PendingSet(s.rows)| + Older(later, s.rows[x].createdAt) + batch - 1) / batch
    requires Exec(s, later).batch == []
    ensures HasLeft(Exec(s, later), x)
  {
    hide Step, Exec, SteadyRun, Lists, Older, Taken, Waiting, BatchOk, PendingSet, HasLeft;
    TakenOrWaiting(s, x);
    SteadyIsSteady(later, batch);
    if Taken(s, x) {
      StaysTaken(s, later, x);
    } else {
      Ceiling(|PendingSet(s.rows)| + Older(later, s.rows[x].createdAt), batch, Lists(s, later));
      AheadIsLess(s, x);
      IsTaken(s, later, x, batch);
    }
    TakenHasLeft(Exec(s, later), x);
  }

  // ---- the exact moment ----

  ghost predicate DistinctTimes(rows: seq<Row>) {
    forall i, j | 0 <= i < j < |rows| :: rows[i].createdAt != rows[j].createdAt
  }

  /** Every listing asks for exactly `batch` rows. */
  ghost predicate ExactRun(run: seq<Action>, batch: nat) {
    forall k | 0 <= k < |run| :: Steady(run[k], 0) && (run[k].List? ==> run[k].limit == batch)
  }

  lemma ExactIsSteady(run: seq<Action>, batch: nat)
    requires ExactRun(run, batch)
    ensures SteadyRun(run, 0)
    ensures run != [] ==> Steady(run[0], 0) && (run[0].List? ==> run[0].limit == batch) && ExactRun(run[1..], batch)
  {
  }

  /** Where created_at tells rows apart, x is listed exactly when fewer rows than the limit are ahead of it. */
  lemma ListedIffFewAhead(s: State, a: Action, x: nat)
    requires IsList(s, a) && Waiting(s, x) && DistinctTimes(s.rows)
    ensures x in a.listed <==> |Ahead(s, x)| < a.limit
  {
    if x in a.listed {
      var m := Members(a.listed);
      DistinctSize(a.listed);
      assert x in m;
      forall y | y in Ahead(s, x) ensures y in m - {x} {
        assert IsPending(s.rows, y) && Created(s.rows, y) != Created(s.rows, x);
        var k :| 0 <= k < |a.listed| && a.listed[k] == x;
        assert y in a.listed;
      }
      SubsetSize(Ahead(s, x), m - {x});
    } else {
      ListAdvances(s, a, x);
    }
  }

  /** The first p actions bring at least as many places in batches as there are rows to go before x. */
  ghost predicate Reached(s: State, run: seq<Action>, x: nat, batch: nat, p: nat) {
    p <= |run| && |Ahead(s, x)| + Older(run[..p], Created(s.rows, x)) < batch * Lists(s, run[..p])
  }

  lemma NotReachedYet(s: State, run: seq<Action>, x: nat, batch: nat)
    ensures !Reached(s, run, x, batch, 0)
  {
  }

  lemma Unfold(s: State, run: seq<Action>, p: nat, at: Time)
    requires p < |run|
    ensures Older(run[..p + 1], at) == Adds(run[0], at) + Older(run[1..][..p], at)
    ensures Lists(s, run[..p + 1]) == (if IsList(s, run[0]) then 1 else 0) + Lists(Step(s, run[0]), run[1..][..p])
  {
    hide Step, IsList;
    assert run[..p + 1][1..] == run[1..][..p];
  }

  /** While x waits, the count goes on from the next state. */
  lemma ReachedShifts(s: State, run: seq<Action>, x: nat, batch: nat, p: nat)
    requires run != [] && p < |run|
    requires
      var a, t := run[0], Step(s, run[0]);
      && Created(t.rows, x) == Created(s.rows, x)
      && |Ahead(t, x)| + (if IsList(s, a) then batch else 0) == |Ahead(s, x)| + Adds(a, Created(s.rows, x))
    ensures Reached(s, run, x, batch, p + 1) <==> Reached(Step(s, run[0]), run[1..], x, batch, p)
  {
    Unfold(s, run, p, Created(s.rows, x));
    OneMoreTime(batch, Lists(Step(s, run[0]), run[1..][..p]));
    hide Ahead, Lists, Older, Step, IsList, Adds;
  }

  lemma ReachedAtOnce(s: State, run: seq<Action>, x: nat, batch: nat)
    requires run != [] && IsList(s, run[0]) && |Ahead(s, x)| < batch
    ensures Reached(s, run, x, batch, 1)
  {
    hide Ahead, IsList, Step, Adds;
    var none, t := run[1..][..0], Step(s, run[0]);
    Unfold(s, run, 0, Created(s.rows, x));
    assert Older(none, Created(s.rows, x)) == 0 && Lists(t, none) == 0;
    assert Adds(run[0], Created(s.rows, x)) == 0 by { ListsAddNothing(s, run[0], Created(s.rows, x)); }
    assert run[..0 + 1] == run[..1] && Lists(s, run[..1]) == 1 && batch * 1 == batch;
  }

  lemma ListsAddNothing(s: State, a: Action, at: Time)
    requires IsList(s, a)
    ensures Adds(a, at) == 0
  {
  }

  lemma StepKeepsTimes(s: State, a: Action)
    requires BatchOk(s)
    ensures |s.rows| <= |Step(s, a).rows| && forall x | 0 <= x < |s.rows| :: Step(s, a).rows[x].createdAt == s.rows[x].createdAt
  {
    hide Passed, IsList;
  }

  lemma {:induction false} RunKeepsTimes(s: State, run: seq<Action>)
    requires BatchOk(s)
    ensures |s.rows| <= |Exec(s, run).rows| && forall x | 0 <= x < |s.rows| :: Exec(s, run).rows[x].createdAt == s.rows[x].createdAt
    decreases run
  {
    hide Step, BatchOk;
    if run != [] {
      StepKeepsTimes(s, run[0]);
      StepKeepsBatch(s, run[0]);
      RunKeepsTimes(Step(s, run[0]), run[1..]);
    }
  }

  lemma EarlierTimes(s: State, run: seq<Action>)
    requires BatchOk(s) && DistinctTimes(Exec(s, run).rows)
    ensures DistinctTimes(s.rows)
  {
    hide Exec, Step;
    RunKeepsTimes(s, run);
  }

  lemma {:induction false} TakenExactly(s: State, later: seq<Action>, x: nat, batch: nat)
    requires BatchOk(s) && Waiting(s, x) && ExactRun(later, batch) && DistinctTimes(Exec(s, later).rows)
    ensures Taken(Exec(s, later), x) <==> exists p: nat :: Reached(s, later, x, batch, p)
    decreases later
  {
    NotReachedYet(s, later, x, batch);
    ExactIsSteady(later, batch);
    EarlierTimes(s, later);
    if later == [] {
      hide Reached;
      assert forall p: nat | Reached(s, later, x, batch, p) :: p == 0 by { ReachedInRange(s, later, x, batch); }
    } else {
      var a, rest := later[0], later[1..];
      var t := Step(s, a);
      StepKeepsBatch(s, a);
      StepMovesUp(s, a, x);
      ExactIsSteady(rest, batch);
      if a.List? && IsList(s, a) && x in a.listed {
        hide Step, Reached, Ahead, Taken, Waiting;
        ListedIffFewAhead(s, a, x);
        ReachedAtOnce(s, later, x, batch);
        StaysTaken(t, rest, x);
      } else {
        forall p: nat | p < |later| ensures Reached(s, later, x, batch, p + 1) <==> Reached(t, rest, x, batch, p) {
          ReachedShifts(s, later, x, batch, p);
        }
        hide Step, Ahead, Taken, Waiting, IsList, Reached;
        TakenExactly(t, rest, x, batch);
        SameReach(s, later, t, rest, x, batch);
      }
    }
  }

  lemma ReachedInRange(s: State, run: seq<Action>, x: nat, batch: nat)
    ensures forall p: nat | Reached(s, run, x, batch, p) :: p <= |run|
  {
  }

  lemma SameReach(s: State, later: seq<Action>, t: State, rest: seq<Action>, x: nat, batch: nat)
    requires later != [] && |rest| + 1 == |later| && !Reached(s, later, x, batch, 0)
    requires forall p: nat | p < |later| :: Reached(s, later, x, batch, p + 1) <==> Reached(t, rest, x, batch, p)
    ensures (exists p: nat :: Reached(s, later, x, batch, p)) <==> (exists p: nat :: Reached(t, rest, x, batch, p))
  {
    ReachedInRange(s, later, x, batch);
    ReachedInRange(t, rest, x, batch);
    hide Reached;
    if p: nat :| Reached(s, later, x, batch, p) {
      assert p > 0;
      var q: nat := p - 1;
      assert Reached(s, later, x, batch, q + 1);
      assert Reached(t, rest, x, batch, q);
    }
    if p: nat :| Reached(t, rest, x, batch, p) {
      assert Reached(s, later, x, batch, p + 1);
    }
  }

  /**
   Where created_at tells rows apart and every listing asks for `batch` rows: between two ticks, a
   row that was waiting has left 'pending' if and only if at some point of the run the rows ahead of
   it and the older ones arrived by then were fewer than the places in the batches listed by then.
   */
  lemma LeavesExactly(s: State, later: seq<Action>, x: nat, batch: nat)
    requires BatchOk(s) && Waiting(s, x) && ExactRun(later, batch)
    requires DistinctTimes(Exec(s, later).rows) && Exec(s, later).batch == []
    ensures HasLeft(Exec(s, later), x) <==> exists p: nat :: Reached(s, later, x, batch, p)
  {
    hide Exec, Step, Reached;
    TakenExactly(s, later, x, batch);
  }

  // ---- a late row takes the place of a pending one ----

  const DELAYED := State([NEW0], [], 0, [], {})
  const DELAYING: seq<Action> := [Enqueue(1, 5), List(1, [1]), Handle(FINE)]

  /** So the rows pending at the start do not always leave within ceil(n / batch) ticks. */
  lemma LateCommitDelays()
    ensures SteadyRun(DELAYING, 1) && |PendingSet(DELAYED.rows)| == 1 && Lists(DELAYED, DELAYING) == 1
    ensures Exec(DELAYED, DELAYING).batch == [] && !HasLeft(Exec(DELAYED, DELAYING), 0)
  {
    var run := DELAYING;
    assert PendingSet(DELAYED.rows) == {0};
    hide Step, Exec, IsList;
    NothingYet(DELAYED, run);
    ExecSnoc(DELAYED, run, 0);
    ExecSnoc(DELAYED, run, 1);
    ExecSnoc(DELAYED, run, 2);
    LooksAfterEnqueue(DELAYED, 1, 5);
    var s1 := Step(DELAYED, run[0]);
    assert s1.rows == [NEW0, NEW1];
    LooksAfterList(s1, 1);
    var s2 := Step(s1, run[1]);
    LooksAfterHandle(s2, 1);
    assert run[..3] == run;
    CountLists(DELAYED, run);
  }

  lemma NothingYet(s: State, run: seq<Action>)
    ensures Exec(s, run[..0]) == s
  {
  }

  lemma CountLists(s: State, run: seq<Action>)
    requires |run| == 3 && !run[0].List? && !run[2].List? && IsList(Step(s, run[0]), run[1])
    ensures Lists(s, run) == 1
  {
    hide Step;
    var s1 := Step(s, run[0]);
    var s2 := Step(s1, run[1]);
    assert run[1..][0] == run[1] && run[1..][1..][0] == run[2] && run[1..][1..][1..] == [];
    assert Lists(s2, run[1..][1..]) == 0 + Lists(Step(s2, run[2]), []);
    assert Lists(s1, run[1..]) == 1 + Lists(s2, run[1..][1..]);
  }
}
