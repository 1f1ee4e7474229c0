/** In which order messages go out: exactly when it is the order of created_at, and inputs where it is not. */
module OutboxOrder {
  import opened Types
  import opened Outbox

  ghost predicate MarksWork(a: Action) {
    a.Handle? ==> a.reply.marked
  }

  ghost predicate AllMarksWork(run: seq<Action>) {
    forall k | 0 <= k < |run| :: MarksWork(run[k])
  }

  /** Messages went out in the order of created_at. */
  ghost predicate InOrder(s: State) {
    forall i, j | 0 <= i < j < |s.mailbox| :: Created(s.rows, s.mailbox[i]) <= Created(s.rows, s.mailbox[j])
  }

  // ---- the invariant ----

  ghost predicate SentAreDone(s: State) {
    Distinct(s.mailbox) && forall k | 0 <= k < |s.mailbox| :: s.mailbox[k] < |s.rows| && !IsPending(s.rows, s.mailbox[k])
  }

  ghost predicate BatchSorted(s: State) {
    forall i, j | 0 <= i < j < |s.batch| :: Created(s.rows, s.batch[i]) <= Created(s.rows, s.batch[j])
  }

  /** A pending row older than a message that went out was passed by it on arrival. */
  ghost predicate SentPassed(s: State) {
    forall p: nat, k | IsPending(s.rows, p) && 0 <= k < |s.mailbox| && Created(s.rows, s.mailbox[k]) > Created(s.rows, p) ::
      (p, s.mailbox[k]) in s.overtakes
  }

  /** So was one older than a listed row and not listed with it. */
  ghost predicate ListedPassed(s: State) {
    forall p: nat, k | IsPending(s.rows, p) && p !in s.batch && 0 <= k < |s.batch| && Created(s.rows, s.batch[k]) > Created(s.rows, p) ::
      (p, s.batch[k]) in s.overtakes
  }

  /** And every message that went out after a newer one. */
  ghost predicate InversionsPassed(s: State) {
    forall i, j | 0 <= i < j < |s.mailbox| && Created(s.rows, s.mailbox[i]) > Created(s.rows, s.mailbox[j]) ::
      (s.mailbox[j], s.mailbox[i]) in s.overtakes
  }

  /** A recorded pair: y is newer and is never listed again, x comes after it wherever they meet. */
  ghost predicate PairOk(s: State, x: nat, y: nat) {
    && x < |s.rows| && y < |s.rows| && Created(s.rows, y) > Created(s.rows, x)
    && (IsPending(s.rows, y) ==> y in s.batch)
    && (x in s.batch || x in s.mailbox ==> y !in s.batch)
    && (forall i, j | 0 <= i < |s.mailbox| && 0 <= j < |s.mailbox| && s.mailbox[i] == x && s.mailbox[j] == y :: j < i)
  }

  ghost predicate PairsOk(s: State) {
    forall p | p in s.overtakes :: PairOk(s, p.0, p.1)
  }

  ghost predicate OrderInv(s: State) {
    && BatchOk(s) && SentAreDone(s) && BatchSorted(s)
    && SentPassed(s) && ListedPassed(s) && InversionsPassed(s) && PairsOk(s)
  }

  // ---- a row arrives ----

  lemma EnqueueRow(s: State, user: Id, createdAt: Time, x: nat)
    requires x < |s.rows|
    ensures
      var t := DoEnqueue(s, user, createdAt);
      Created(t.rows, x) == Created(s.rows, x) && (IsPending(t.rows, x) <==> IsPending(s.rows, x))
  {
    hide Passed;
  }

  lemma EnqueuePassed(s: State, user: Id, createdAt: Time, y: nat)
    requires (y in s.mailbox || y in s.batch) && Created(s.rows, y) > createdAt
    ensures (|s.rows|, y) in DoEnqueue(s, user, createdAt).overtakes
  {
    assert y in s.mailbox + s.batch <==> y in s.mailbox || y in s.batch;
  }

  /** Nothing is known of the new row but what its arrival records. */
  lemma EnqueueOnly(s: State, user: Id, createdAt: Time, p: (nat, nat))
    requires p in DoEnqueue(s, user, createdAt).overtakes && p !in s.overtakes
    ensures p.0 == |s.rows| && (p.1 in s.mailbox || p.1 in s.batch) && Created(s.rows, p.1) > createdAt
  {
    assert p.1 in s.mailbox + s.batch;
  }

  lemma EnqueueKeepsRecords(s: State, user: Id, createdAt: Time)
    requires OrderInv(s)
    ensures
      var t := DoEnqueue(s, user, createdAt);
      SentAreDone(t) && BatchSorted(t) && SentPassed(t) && ListedPassed(t) && InversionsPassed(t)
  {
    hide PairsOk;
    var t, n := DoEnqueue(s, user, createdAt), |s.rows|;
    assert t.mailbox == s.mailbox && t.batch == s.batch && s.overtakes <= t.overtakes && |t.rows| == n + 1 && Created(t.rows, n) == createdAt;
    forall x: nat | x < n ensures Created(t.rows, x) == Created(s.rows, x) && (IsPending(t.rows, x) <==> IsPending(s.rows, x)) {
      EnqueueRow(s, user, createdAt, x);
    }
    forall y | (y in s.mailbox || y in s.batch) && Created(s.rows, y) > createdAt ensures (n, y) in t.overtakes {
      EnqueuePassed(s, user, createdAt, y);
    }
    hide DoEnqueue;
    forall k | 0 <= k < |s.batch| ensures s.batch[k] < n { assert IsPending(s.rows, s.batch[k]); }
  }

  lemma EnqueueKeepsPairs(s: State, user: Id, createdAt: Time)
    requires OrderInv(s)
    ensures PairsOk(DoEnqueue(s, user, createdAt))
  {
    hide SentPassed, ListedPassed, InversionsPassed, BatchSorted;
    var t, n := DoEnqueue(s, user, createdAt), |s.rows|;
    assert t.mailbox == s.mailbox && t.batch == s.batch && |t.rows| == n + 1 && Created(t.rows, n) == createdAt;
    forall k | 0 <= k < |s.batch| ensures s.batch[k] < n { assert IsPending(s.rows, s.batch[k]); }
    forall p | p in t.overtakes ensures PairOk(t, p.0, p.1) {
      if p in s.overtakes {
        assert PairOk(s, p.0, p.1);
      } else {
        EnqueueOnly(s, user, createdAt, p);
      }
      assert p.1 < n;
      EnqueueRow(s, user, createdAt, p.1);
      if p.0 < n { EnqueueRow(s, user, createdAt, p.0); }
    }
  }

  // ---- a batch is listed ----

  lemma ListKeeps(s: State, a: Action)
    requires OrderInv(s) && IsList(s, a)
    ensures OrderInv(Step(s, a))
  {
    var t := Step(s, a);
    assert t == s.(batch := a.listed);
    hide Step;
    StepKeepsBatchHere(s, a);
    forall p | p in t.overtakes ensures PairOk(t, p.0, p.1) {
      assert PairOk(s, p.0, p.1);
      assert p.1 !in a.listed;
    }
  }

  lemma StepKeepsBatchHere(s: State, a: Action)
    requires IsList(s, a)
    ensures BatchOk(s.(batch := a.listed))
  {
  }

  // ---- a row is handled ----

  lemma HandleRowEffect(s: State, reply: Reply, y: nat)
    requires BatchOk(s) && s.batch != [] && reply.marked
    ensures
      var t := DoHandle(s, reply);
      && |t.rows| == |s.rows| && Created(t.rows, y) == Created(s.rows, y)
      && (IsPending(t.rows, y) <==> IsPending(s.rows, y) && y != s.batch[0])
  {
    assert IsPending(s.rows, s.batch[0]);
  }

  /** The batch without its head. */
  lemma Tail(s: State)
    requires BatchOk(s) && s.batch != []
    ensures forall y :: y in s.batch[1..] <==> y in s.batch && y != s.batch[0]
    ensures forall k | 0 <= k < |s.batch| - 1 :: s.batch[1..][k] == s.batch[k + 1]
  {
  }

  lemma HeadIsOldest(s: State)
    requires BatchSorted(s) && s.batch != []
    ensures forall p | p in s.batch :: Created(s.rows, s.batch[0]) <= Created(s.rows, p)
  {
  }

  lemma HandleKeepsRecords(s: State, reply: Reply)
    requires OrderInv(s) && s.batch != [] && reply.marked
    ensures
      var t := DoHandle(s, reply);
      SentAreDone(t) && BatchSorted(t) && SentPassed(t) && ListedPassed(t)
  {
    hide PairsOk, InversionsPassed;
    var t, x := DoHandle(s, reply), s.batch[0];
    Tail(s);
    assert IsPending(s.rows, x);
    assert t.batch == s.batch[1..] && t.overtakes == s.overtakes;
    assert t.mailbox == s.mailbox + (if reply.delivered then [x] else []);
    forall y ensures |t.rows| == |s.rows| && Created(t.rows, y) == Created(s.rows, y) && (IsPending(t.rows, y) <==> IsPending(s.rows, y) && y != x) {
      HandleRowEffect(s, reply, y);
    }
    hide DoHandle;
    HeadIsOldest(s);
  }

  lemma HandleKeepsInversions(s: State, reply: Reply)
    requires OrderInv(s) && s.batch != [] && reply.marked
    ensures InversionsPassed(DoHandle(s, reply))
  {
    hide PairsOk, ListedPassed, BatchSorted;
    var t, x := DoHandle(s, reply), s.batch[0];
    assert IsPending(s.rows, x);
    assert t.overtakes == s.overtakes && t.mailbox == s.mailbox + (if reply.delivered then [x] else []);
    forall y ensures Created(t.rows, y) == Created(s.rows, y) {
      HandleRowEffect(s, reply, y);
    }
  }

  lemma HandleKeepsPairs(s: State, reply: Reply)
    requires OrderInv(s) && s.batch != [] && reply.marked
    ensures PairsOk(DoHandle(s, reply))
  {
    hide SentPassed, ListedPassed, InversionsPassed, BatchSorted;
    var t, x := DoHandle(s, reply), s.batch[0];
    Tail(s);
    assert IsPending(s.rows, x) && x in s.batch;
    assert t.batch == s.batch[1..] && t.overtakes == s.overtakes;
    assert t.mailbox == s.mailbox + (if reply.delivered then [x] else []);
    forall y ensures |t.rows| == |s.rows| && Created(t.rows, y) == Created(s.rows, y) && (IsPending(t.rows, y) <==> IsPending(s.rows, y) && y != x) {
      HandleRowEffect(s, reply, y);
    }
    hide DoHandle;
    assert x !in s.mailbox;
    forall p | p in t.overtakes ensures PairOk(t, p.0, p.1) {
      assert PairOk(s, p.0, p.1);
      assert p.0 in t.mailbox ==> p.0 in s.mailbox || p.0 == x;
    }
  }

  // ---- the worker dies ----

  lemma AbandonKeeps(s: State)
    requires OrderInv(s)
    ensures OrderInv(DoAbandon(s))
  {
    var t := DoAbandon(s);
    forall p | p in t.overtakes ensures PairOk(t, p.0, p.1) {
      assert PairOk(s, p.0, p.1);
    }
  }

  // ---- every run ----

  lemma StepKeepsOrder(s: State, a: Action)
    requires OrderInv(s) && MarksWork(a)
    ensures OrderInv(Step(s, a))
  {
    StepKeepsBatch(s, a);
    match a
    case Enqueue(user, createdAt) =>
      hide DoEnqueue;
      EnqueueKeepsRecords(s, user, createdAt);
      EnqueueKeepsPairs(s, user, createdAt);
    case List(limit, listed) =>
      if IsList(s, a) { ListKeeps(s, a); }
    case Handle(reply) =>
      if s.batch != [] {
        HandleKeepsRecords(s, reply);
        HandleKeepsInversions(s, reply);
        HandleKeepsPairs(s, reply);
      }
    case Abandon => AbandonKeeps(s);
  }

  lemma {:induction false} RunKeepsOrder(s: State, run: seq<Action>)
    requires OrderInv(s) && AllMarksWork(run)
    ensures OrderInv(Exec(s, run))
    decreases run
  {
    hide OrderInv, Step, MarksWork;
    if run != [] {
      StepKeepsOrder(s, run[0]);
      assert AllMarksWork(run[1..]);
      RunKeepsOrder(Step(s, run[0]), run[1..]);
    }
  }

  /**
   Where no mark is lost, no message goes out twice; and the messages go out oldest first if and
   only if no two of them are for rows of which the older arrived when the newer was already sent
   or listed. Rows arrive at any moment, also between the rows of a batch.
   */
  lemma OldestFirstIffNonePassed(run: seq<Action>)
    requires AllMarksWork(run)
    ensures
      var s := Exec(START, run);
      && Distinct(s.mailbox)
      && (InOrder(s) <==> forall p | p in s.overtakes :: p.0 !in s.mailbox || p.1 !in s.mailbox)
  {
    hide Exec, Step;
    var s := Exec(START, run);
    RunKeepsOrder(START, run);
    if p :| p in s.overtakes && p.0 in s.mailbox && p.1 in s.mailbox {
      var i :| 0 <= i < |s.mailbox| && s.mailbox[i] == p.0;
      var j :| 0 <= j < |s.mailbox| && s.mailbox[j] == p.1;
      assert PairOk(s, p.0, p.1);
    }
  }

  // ---- confirmations that commit late ----

  const FINE := Reply(true, true)

  /** A transaction begun at 5 commits after one begun at 10 whose row has been sent. */
  const AFTER_SENDING: seq<Action> :=
    [Enqueue(0, 10), List(1, [0]), Handle(FINE), Enqueue(1, 5), List(1, [1]), Handle(FINE)]

  /** It commits when the other row has only been listed. */
  const DURING_BATCH: seq<Action> :=
    [Enqueue(0, 10), List(1, [0]), Enqueue(1, 5), Handle(FINE), List(1, [1]), Handle(FINE)]

  ghost predicate Looks(s: State, rows: seq<Row>, mailbox: seq<nat>, batch: seq<nat>) {
    s.rows == rows && s.mailbox == mailbox && s.batch == batch
  }

  lemma ExecSnoc(s: State, run: seq<Action>, k: nat)
    requires k < |run|
    ensures Exec(s, run[..k + 1]) == Step(Exec(s, run[..k]), run[k])
  {
    hide Step;
    assert run[..k + 1] == run[..k] + [run[k]];
    ExecConcat(s, run[..k], [run[k]]);
    ExecOne(Exec(s, run[..k]), run[k]);
  }

  lemma LooksAfterEnqueue(s: State, user: Id, createdAt: Time)
    ensures Looks(Step(s, Enqueue(user, createdAt)), s.rows + [Row(user, createdAt, Pending, 0)], s.mailbox, s.batch)
  {
  }

  lemma LooksAfterList(s: State, x: nat)
    requires s.batch == [] && IsPending(s.rows, x) && forall y | IsPending(s.rows, y) :: Created(s.rows, x) <= Created(s.rows, y)
    ensures Looks(Step(s, List(1, [x])), s.rows, s.mailbox, [x]) && IsList(s, List(1, [x]))
  {
    SingleIsBatch(s.rows, x);
    hide IsBatch;
  }

  lemma SingleIsBatch(rows: seq<Row>, x: nat)
    requires IsPending(rows, x) && forall y | IsPending(rows, y) :: Created(rows, x) <= Created(rows, y)
    ensures IsBatch(rows, 1, [x])
  {
    hide IsPending, Created;
    assert forall k | 0 <= k < |[x]| :: [x][k] == x;
  }

  lemma LooksAfterHandle(s: State, x: nat)
    requires s.batch == [x] && x < |s.rows|
    ensures Looks(Step(s, Handle(FINE)), s.rows[x := s.rows[x].(status := Sent, attempts := s.rows[x].attempts + 1)], s.mailbox + [x], [])
  {
  }

  const NEW0 := Row(0, 10, Pending, 0)
  const NEW1 := Row(1, 5, Pending, 0)
  const SENT0 := Row(0, 10, Sent, 1)
  const SENT1 := Row(1, 5, Sent, 1)

  lemma StartLooks(run: seq<Action>)
    ensures Looks(Exec(START, run[..0]), [], [], [])
  {
  }

  /** The end of both runs: the late row is listed and sent. */
  lemma BothSent(s: State)
    requires Looks(s, [SENT0, NEW1], [0], [])
    ensures
      var t := Step(Step(s, List(1, [1])), Handle(FINE));
      Looks(t, [SENT0, SENT1], [0] + [1], []) && !InOrder(t)
  {
    hide Step, IsList;
    LooksAfterList(s, 1);
    LooksAfterHandle(Step(s, List(1, [1])), 1);
    var t := Step(Step(s, List(1, [1])), Handle(FINE));
    assert t.rows == [SENT0, SENT1];
    assert Created(t.rows, t.mailbox[0]) > Created(t.rows, t.mailbox[1]);
  }

  lemma FirstListed(run: seq<Action>)
    requires |run| == 6 && run[0] == Enqueue(0, 10) && run[1] == List(1, [0])
    ensures Looks(Exec(START, run[..2]), [NEW0], [], [0])
  {
    hide Step, Exec, IsList;
    StartLooks(run);
    ExecSnoc(START, run, 0);
    LooksAfterEnqueue(Exec(START, run[..0]), 0, 10);
    ExecSnoc(START, run, 1);
    assert [] + [NEW0] == [NEW0];
    LooksAfterList(Exec(START, run[..1]), 0);
  }

  lemma Ends(run: seq<Action>)
    requires |run| == 6 && run[4] == List(1, [1]) && run[5] == Handle(FINE)
    requires Looks(Exec(START, run[..4]), [SENT0, NEW1], [0], [])
    ensures !InOrder(Exec(START, run))
  {
    hide Step, Exec;
    ExecSnoc(START, run, 4);
    ExecSnoc(START, run, 5);
    BothSent(Exec(START, run[..4]));
    assert run[..6] == run;
  }

  /** `Oldest first` is false of the code: a late commit is sent after a newer row. */
  lemma LateCommitOvertakes()
    ensures AllMarksWork(AFTER_SENDING) && !InOrder(Exec(START, AFTER_SENDING))
  {
    hide Step, Exec;
    var run := AFTER_SENDING;
    FirstListed(run);
    ExecSnoc(START, run, 2);
    LooksAfterHandle(Exec(START, run[..2]), 0);
    assert [NEW0][0 := SENT0] == [SENT0] && [] + [0] == [0];
    ExecSnoc(START, run, 3);
    LooksAfterEnqueue(Exec(START, run[..3]), 1, 5);
    assert [SENT0] + [NEW1] == [SENT0, NEW1];
    Ends(run);
  }

  /** It need not come after a message: arriving while the newer row is listed is enough. */
  lemma CommitDuringBatchOvertakes()
    ensures AllMarksWork(DURING_BATCH) && !InOrder(Exec(START, DURING_BATCH))
  {
    hide Step, Exec;
    var run := DURING_BATCH;
    FirstListed(run);
    ExecSnoc(START, run, 2);
    LooksAfterEnqueue(Exec(START, run[..2]), 1, 5);
    assert [NEW0] + [NEW1] == [NEW0, NEW1];
    ExecSnoc(START, run, 3);
    LooksAfterHandle(Exec(START, run[..3]), 0);
    assert [NEW0, NEW1][0 := SENT0] == [SENT0, NEW1] && [] + [0] == [0];
    Ends(run);
  }
}
