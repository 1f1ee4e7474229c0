/**
 The notification outbox and its dispatcher: what one worker sends, marks and counts over whole
 runs. A row's created_at is the start of the transaction that inserts it, and it becomes visible
 when that transaction commits: rows may arrive older than rows already listed or sent, also
 between the rows of a batch.
 */
module Outbox {
  import opened Types

  datatype Status = Pending | Sent | Failed

  datatype Row = Row(user: Id, createdAt: Time, status: Status, attempts: nat)

  /**
   How the world answers for one row: whether looking up the recipient, rendering and sending all
   succeed, and whether the following MarkSent or MarkFailed does.
   */
  datatype Reply = Reply(delivered: bool, marked: bool)

  predicate IsPending(rows: seq<Row>, x: nat) {
    x < |rows| && rows[x].status == Pending
  }

  ghost function PendingSet(rows: seq<Row>): set<nat> {
    set x | 0 <= x < |rows| && rows[x].status == Pending
  }

  function Created(rows: seq<Row>, x: nat): Time {
    if x < |rows| then rows[x].createdAt else 0
  }

  ghost predicate Distinct(ids: seq<nat>) {
    forall i, j | 0 <= i < j < |ids| :: ids[i] != ids[j]
  }

  /** Pending rows in the order of created_at, and none left out is older than one of them. */
  ghost predicate Oldest(rows: seq<Row>, ids: seq<nat>) {
    && Distinct(ids)
    && (forall k | 0 <= k < |ids| :: IsPending(rows, ids[k]))
    && (forall i, j | 0 <= i < j < |ids| :: Created(rows, ids[i]) <= Created(rows, ids[j]))
    && (forall k, x | 0 <= k < |ids| && IsPending(rows, x) && x !in ids :: Created(rows, ids[k]) <= Created(rows, x))
  }

  /**
   An answer to `SELECT ... WHERE status = 'pending' ORDER BY created_at LIMIT limit`; rows of the
   same created_at may come in any order.
   */
  ghost predicate IsBatch(rows: seq<Row>, limit: nat, ids: seq<nat>) {
    && Oldest(rows, ids)
    && |ids| <= limit
    && (|ids| < limit ==> forall x | IsPending(rows, x) :: x in ids)
  }

  /** MarkSent and MarkFailed are unconditional updates by id; a failed update changes nothing. */
  function Marked(row: Row, reply: Reply): Row {
    if !reply.marked then row
    else row.(status := if reply.delivered then Sent else Failed, attempts := row.attempts + 1)
  }

  // ---- runs ----

  /**
   The table, the messages that went out, the counts returned, the listed rows still to be handled,
   and the pairs (x, y) in which x arrived while the newer y was already sent or listed.
   */
  datatype State = State(
    rows: seq<Row>, mailbox: seq<nat>, reported: nat, batch: seq<nat>, overtakes: set<(nat, nat)>)

  const START := State([], [], 0, [], {})

  /** A listing carries the answer of its query; one that is no answer to it, or comes while a batch is open, does nothing. */
  datatype Action =
    | Enqueue(user: Id, createdAt: Time)    // a confirmation commits
    | List(limit: nat, listed: seq<nat>)    // a tick begins
    | Handle(reply: Reply)                  // it sends and marks the next row of its batch
    | Abandon                               // the worker dies with its batch

  /** The newer rows that x, arriving now, can no longer go before. */
  function Passed(s: State, at: Time): set<(nat, nat)> {
    set y | y in s.mailbox + s.batch && Created(s.rows, y) > at :: (|s.rows|, y)
  }

  ghost predicate IsList(s: State, a: Action) {
    a.List? && s.batch == [] && IsBatch(s.rows, a.limit, a.listed)
  }

  function DoEnqueue(s: State, user: Id, createdAt: Time): State {
    s.(rows := s.rows + [Row(user, createdAt, Pending, 0)], overtakes := s.overtakes + Passed(s, createdAt))
  }

  function DoHandle(s: State, reply: Reply): State {
    if s.batch == [] then s
    else
      var x := s.batch[0];
      s.(rows := if x < |s.rows| then s.rows[x := Marked(s.rows[x], reply)] else s.rows,
         mailbox := s.mailbox + (if reply.delivered then [x] else []),
         reported := s.reported + (if reply == Reply(true, true) then 1 else 0),
         batch := s.batch[1..])
  }

  function DoAbandon(s: State): State {
    s.(batch := [], overtakes := set p | p in s.overtakes && p.1 in s.mailbox)
  }

  ghost function Step(s: State, a: Action): State {
    match a
    case Enqueue(user, createdAt) => DoEnqueue(s, user, createdAt)
    case List(limit, listed) => if IsList(s, a) then s.(batch := listed) else s
    case Handle(reply) => DoHandle(s, reply)
    case Abandon => DoAbandon(s)
  }

  ghost function Exec(s: State, run: seq<Action>): State
    decreases run
  {
    if run == [] then s else Exec(Step(s, run[0]), run[1..])
  }

  lemma {:induction false} ExecConcat(s: State, a: seq<Action>, b: seq<Action>)
    ensures Exec(s, a + b) == Exec(Exec(s, a), b)
    decreases a
  {
    hide Step;
    if a == [] {
      assert a + b == b;
    } else {
      assert (a + b)[1..] == a[1..] + b;
      ExecConcat(Step(s, a[0]), a[1..], b);
    }
  }

  lemma ExecOne(s: State, a: Action)
    ensures Exec(s, [a]) == Step(s, a)
  {
    hide Step;
    assert [a][1..] == [];
  }

  // ---- listed rows are pending until they are handled ----

  ghost predicate BatchOk(s: State) {
    Distinct(s.batch) && forall k | 0 <= k < |s.batch| :: IsPending(s.rows, s.batch[k])
  }

  lemma EnqueueKeepsBatch(s: State, user: Id, createdAt: Time)
    requires BatchOk(s)
    ensures BatchOk(DoEnqueue(s, user, createdAt))
  {
    hide Passed;
  }

  lemma HandleKeepsBatch(s: State, reply: Reply)
    requires BatchOk(s)
    ensures BatchOk(DoHandle(s, reply))
  {
    var t := DoHandle(s, reply);
    forall k | 0 <= k < |t.batch| ensures IsPending(t.rows, t.batch[k]) {
      assert t.batch[k] == s.batch[k + 1];
      assert IsPending(s.rows, s.batch[k + 1]);
    }
  }

  lemma StepKeepsBatch(s: State, a: Action)
    requires BatchOk(s)
    ensures BatchOk(Step(s, a))
  {
    hide Passed, DoEnqueue, DoHandle;
    match a
    case Enqueue(user, createdAt) => EnqueueKeepsBatch(s, user, createdAt);
    case Handle(reply) => HandleKeepsBatch(s, reply);
    case _ =>
  }

  // ---- the code ----

  /** What commits between two rows of a batch. */
  datatype Arrival = Arrival(user: Id, createdAt: Time)

  function Enqueues(arrivals: seq<Arrival>): seq<Action> {
    seq(|arrivals|, k requires 0 <= k < |arrivals| => Enqueue(arrivals[k].user, arrivals[k].createdAt))
  }

  /** The run of the first n rounds: before each row, whatever commits meanwhile. */
  function Rounds(arrivals: nat -> seq<Arrival>, replies: nat -> Reply, n: nat): seq<Action> {
    if n == 0 then []
    else Rounds(arrivals, replies, n - 1) + Enqueues(arrivals(n - 1)) + [Handle(replies(n - 1))]
  }

  class Dispatcher {
    var rows: seq<Row>
    var mailbox: seq<nat>   // the row of every message that went out
    ghost var s: State      // the run so far

    ghost predicate Valid()
      reads this
    {
      rows == s.rows && mailbox == s.mailbox && BatchOk(s)
    }

    constructor ()
      ensures Valid() && s == START
    {
      rows, mailbox, s := [], [], START;
    }

    method Create(user: Id, createdAt: Time)
      requires Valid()
      modifies this`rows, this`s
      ensures Valid() && s == Step(old(s), Enqueue(user, createdAt))
      ensures rows == old(rows) + [Row(user, createdAt, Pending, 0)]
    {
      EnqueueKeepsBatch(s, user, createdAt);
      rows := rows + [Row(user, createdAt, Pending, 0)];
      s := DoEnqueue(s, user, createdAt);
    }

    /** The oldest pending row that is not listed yet. */
    method NextOldest(ids: seq<nat>) returns (m: Option<nat>)
      ensures m.None? ==> forall x | IsPending(rows, x) :: x in ids
      ensures m.Some? ==> IsPending(rows, m.value) && m.value !in ids
      ensures m.Some? ==> forall x | IsPending(rows, x) && x !in ids :: Created(rows, m.value) <= Created(rows, x)
    {
      m := None;
      for i := 0 to |rows|
        invariant m.None? ==> forall x: nat | IsPending(rows, x) && x < i :: x in ids
        invariant m.Some? ==> IsPending(rows, m.value) && m.value !in ids
        invariant m.Some? ==> forall x: nat | IsPending(rows, x) && x < i && x !in ids :: Created(rows, m.value) <= Created(rows, x)
      {
        if rows[i].status == Pending && i !in ids && (m.None? || rows[i].createdAt < rows[m.value].createdAt) {
          m := Some(i);
        }
      }
    }

    method ListPending(limit: nat) returns (ids: seq<nat>)
      ensures IsBatch(rows, limit, ids)
    {
      ids := [];
      for i := 0 to limit
        invariant |ids| == i && Oldest(rows, ids)
      {
        var m := NextOldest(ids);
        if m.None? { return; }
        OldestExtends(rows, ids, m.value);
        ids := ids + [m.value];
      }
    }

    method MarkSent(id: nat, fails: bool) returns (ok: bool)
      requires id < |rows|
      modifies this`rows
      ensures ok <==> !fails
      ensures rows == old(rows)[id := Marked(old(rows)[id], Reply(true, ok))]
      ensures rows == if ok then old(rows)[id := old(rows)[id].(status := Sent, attempts := old(rows)[id].attempts + 1)] else old(rows)
    {
      ok := !fails;
      if ok { rows := rows[id := rows[id].(status := Sent, attempts := rows[id].attempts + 1)]; }
    }

    method MarkFailed(id: nat, fails: bool) returns (ok: bool)
      requires id < |rows|
      modifies this`rows
      ensures ok <==> !fails
      ensures rows == old(rows)[id := Marked(old(rows)[id], Reply(false, ok))]
      ensures rows == if ok then old(rows)[id := old(rows)[id].(status := Failed, attempts := old(rows)[id].attempts + 1)] else old(rows)
    {
      ok := !fails;
      if ok { rows := rows[id := rows[id].(status := Failed, attempts := rows[id].attempts + 1)]; }
    }

    /** One turn of the loop: whether the row adds to the count returned. */
    method HandleRow(id: nat, reply: Reply) returns (counted: bool)
      requires id < |rows|
      modifies this`rows, this`mailbox
      ensures counted <==> reply == Reply(true, true)
      ensures rows == old(rows)[id := Marked(old(rows)[id], reply)]
      ensures mailbox == old(mailbox) + (if reply.delivered then [id] else [])
    {
      counted := false;
      if !reply.delivered {
        var _ := MarkFailed(id, !reply.marked);
        return;
      }
      mailbox := mailbox + [id];
      counted := MarkSent(id, !reply.marked);
    }

    /** What other transactions commit while the batch is at work. */
    method Receive(arrivals: seq<Arrival>)
      requires Valid()
      modifies this`rows, this`s
      ensures Valid() && s == Exec(old(s), Enqueues(arrivals))
      ensures s.batch == old(s.batch) && s.reported == old(s.reported)
    {
      assert Enqueues(arrivals[..0]) == [];
      for i := 0 to |arrivals|
        invariant Valid() && s == Exec(old(s), Enqueues(arrivals[..i]))
        invariant s.batch == old(s.batch) && s.reported == old(s.reported)
      {
        var a := Enqueue(arrivals[i].user, arrivals[i].createdAt);
        assert Enqueues(arrivals[..i + 1]) == Enqueues(arrivals[..i]) + [a];
        ExecConcat(old(s), Enqueues(arrivals[..i]), [a]);
        ExecOne(s, a);
        Create(arrivals[i].user, arrivals[i].createdAt);
      }
      assert arrivals[..|arrivals|] == arrivals;
    }

    /**
     A tick, with rows arriving before each row it handles. None is the error of a listing that
     fails; a row that fails does not stop the batch. The count is that of the rows sent and marked.
     */
    method ProcessPending(limit: nat, listFails: bool, replies: nat -> Reply, arrivals: nat -> seq<Arrival>)
      returns (sent: Option<nat>, listed: seq<nat>)
      requires Valid() && s.batch == []
      modifies this
      ensures Valid() && s.batch == []
      ensures listFails ==> sent == None && s == old(s)
      ensures !listFails ==>
        && IsBatch(old(rows), limit, listed)
        && s == Exec(old(s), [List(limit, listed)] + Rounds(arrivals, replies, |listed|))
        && sent == Some(s.reported - old(s.reported))
    {
      if listFails { return None, []; }
      listed := ListPending(limit);
      ghost var s0 := s.(batch := listed);
      ListStarts(s, limit, listed);
      s := s0;
      var count := 0;
      for i := 0 to |listed|
        invariant Valid() && s == Exec(s0, Rounds(arrivals, replies, i)) && s.batch == listed[i..]
        invariant s.reported == s0.reported + count
      {
        NextRound(s0, arrivals, replies, i);
        Receive(arrivals(i));
        HandleKeepsBatch(s, replies(i));
        BatchHead(s);
        var counted := HandleRow(listed[i], replies(i));
        s := DoHandle(s, replies(i));
        if counted { count := count + 1; }
      }
      ExecConcat(old(s), [List(limit, listed)], Rounds(arrivals, replies, |listed|));
      sent := Some(count);
    }
  }

  lemma OldestExtends(rows: seq<Row>, ids: seq<nat>, m: nat)
    requires Oldest(rows, ids) && IsPending(rows, m) && m !in ids
    requires forall x | IsPending(rows, x) && x !in ids :: Created(rows, m) <= Created(rows, x)
    ensures Oldest(rows, ids + [m])
  {
    var more := ids + [m];
    forall x ensures x in more <==> x in ids || x == m {}
    forall k | 0 <= k < |ids| ensures more[k] == ids[k] && Created(rows, ids[k]) <= Created(rows, m) {}
  }

  lemma ListStarts(s: State, limit: nat, listed: seq<nat>)
    requires s.batch == [] && IsBatch(s.rows, limit, listed)
    ensures Exec(s, [List(limit, listed)]) == s.(batch := listed) && BatchOk(s.(batch := listed))
  {
    ExecOne(s, List(limit, listed));
  }

  lemma NextRound(s: State, arrivals: nat -> seq<Arrival>, replies: nat -> Reply, i: nat)
    ensures Exec(s, Rounds(arrivals, replies, i + 1))
         == DoHandle(Exec(Exec(s, Rounds(arrivals, replies, i)), Enqueues(arrivals(i))), replies(i))
  {
    hide Exec;
    ExecConcat(s, Rounds(arrivals, replies, i) + Enqueues(arrivals(i)), [Handle(replies(i))]);
    ExecConcat(s, Rounds(arrivals, replies, i), Enqueues(arrivals(i)));
    ExecOne(Exec(Exec(s, Rounds(arrivals, replies, i)), Enqueues(arrivals(i))), Handle(replies(i)));
  }

  lemma BatchHead(s: State)
    requires BatchOk(s) && s.batch != []
    ensures s.batch[0] < |s.rows|
  {
    assert IsPending(s.rows, s.batch[0]);
  }

  // ---- messages and marks ----

  /** How often, in a run, a message for row x went out and the row could not be marked. */
  ghost function LostMarks(s: State, run: seq<Action>, x: nat): nat
    decreases run
  {
    if run == [] then 0
    else LostMark(s, run[0], x) + LostMarks(Step(s, run[0]), run[1..], x)
  }

  function LostMark(s: State, a: Action, x: nat): nat {
    if a.Handle? && s.batch != [] && s.batch[0] == x && a.reply == Reply(true, false) then 1 else 0
  }

  function Copies(s: State, x: nat): nat {
    multiset(s.mailbox)[x]
  }

  function SentFlag(s: State, x: nat): nat {
    if x < |s.rows| && s.rows[x].status == Sent then 1 else 0
  }

  lemma StepCopies(s: State, a: Action, x: nat)
    requires BatchOk(s)
    ensures Copies(Step(s, a), x) + SentFlag(s, x) == Copies(s, x) + SentFlag(Step(s, a), x) + LostMark(s, a, x)
  {
    hide Passed, IsList;
    if a.Handle? && s.batch != [] { assert IsPending(s.rows, s.batch[0]); }
  }

  lemma {:induction false} RunCopies(s: State, run: seq<Action>, x: nat)
    requires BatchOk(s)
    ensures Copies(Exec(s, run), x) + SentFlag(s, x) == Copies(s, x) + SentFlag(Exec(s, run), x) + LostMarks(s, run, x)
    decreases run
  {
    hide Step, Copies, SentFlag, LostMark, BatchOk;
    if run != [] {
      StepKeepsBatch(s, run[0]);
      StepCopies(s, run[0], x);
      RunCopies(Step(s, run[0]), run[1..], x);
    }
  }

  /**
   A message goes out once for a row that ends up sent, plus once for every time its mark was lost,
   and for no other reason.
   */
  lemma CopiesAreMarksPlusLosses(run: seq<Action>, x: nat)
    ensures
      var s := Exec(START, run);
      multiset(s.mailbox)[x] == SentFlag(s, x) + LostMarks(START, run, x)
  {
    RunCopies(START, run, x);
  }

  // ---- reported counts ----

  ghost function SentRows(rows: seq<Row>): set<nat> {
    set x | 0 <= x < |rows| && rows[x].status == Sent
  }

  lemma StepCounts(s: State, a: Action)
    requires BatchOk(s)
    ensures Step(s, a).reported + |SentRows(s.rows)| == s.reported + |SentRows(Step(s, a).rows)|
  {
    hide Passed, IsList;
    var t := Step(s, a);
    if a.Handle? && s.batch != [] {
      assert IsPending(s.rows, s.batch[0]);
      assert SentRows(t.rows) == SentRows(s.rows) + (if a.reply == Reply(true, true) then {s.batch[0]} else {});
    } else {
      assert SentRows(t.rows) == SentRows(s.rows);
    }
  }

  lemma {:induction false} RunCounts(s: State, run: seq<Action>)
    requires BatchOk(s) && s.reported == |SentRows(s.rows)|
    ensures Exec(s, run).reported == |SentRows(Exec(s, run).rows)|
    decreases run
  {
    hide Step, BatchOk, SentRows;
    if run != [] {
      StepKeepsBatch(s, run[0]);
      StepCounts(s, run[0]);
      RunCounts(Step(s, run[0]), run[1..]);
    }
  }

  /** The counts returned by all ticks add up to the rows marked sent, whatever failed. */
  lemma CountsAddUp(run: seq<Action>)
    ensures Exec(START, run).reported == |SentRows(Exec(START, run).rows)|
  {
    RunCounts(START, run);
  }
}
