/**
 The waiting room of one event: a counter (INCR), a sorted set scored by it (ZADD NX, ZRANK,
 ZPOPMIN) and admission windows. A join is two commands, an admission tick reads the queue's
 length before it pops; commands of any number of fans and workers interleave.
 */
module WaitingRoom {
  import opened Types

  /** A member of the sorted set. The queue is kept in the set's order: by ascending score. */
  datatype Entry = Entry(fan: Id, score: nat)

  predicate IsQueued(queue: seq<Entry>, fan: Id) {
    exists i :: 0 <= i < |queue| && queue[i].fan == fan
  }

  function Insert(queue: seq<Entry>, e: Entry): seq<Entry> {
    if queue == [] || e.score < queue[0].score then [e] + queue
    else [queue[0]] + Insert(queue[1..], e)
  }

  /** `ZADD NX`: a member already in the set keeps its score. */
  function ZAddNX(queue: seq<Entry>, e: Entry): seq<Entry> {
    if IsQueued(queue, e.fan) then queue else Insert(queue, e)
  }

  function PopCount(queue: seq<Entry>, count: int): nat {
    if count <= 0 then 0 else if count < |queue| then count else |queue|
  }

  /** min(queue length, available units, cap per tick), and nothing when one of them is not positive. */
  function AdmitCount(length: nat, available: nat, cap: int): (n: nat)
    ensures n <= length && n <= available && (n <= cap || n == 0)
    ensures n == 0 <==> length == 0 || available == 0 || cap <= 0
    ensures n > 0 ==> n == length || n == available || n == cap
  {
    var least := if length <= available then length else available;
    if cap <= 0 then 0 else if cap < least then cap else least
  }

  /** How Redis answers an admission: all commands succeed, the pop fails, or the pipeline fails part-way. */
  datatype Reply = Done | PopFails | MarkFails(marked: nat)

  /** How many of n windows are written. */
  function Marked(n: nat, reply: Reply): (m: nat)
    ensures m <= n && (!reply.MarkFails? ==> m == n)
  {
    if reply.MarkFails? && reply.marked < n then reply.marked else n
  }

  function Fans(queue: seq<Entry>): (fans: seq<Id>)
    ensures |fans| == |queue| && forall i | 0 <= i < |queue| :: fans[i] == queue[i].fan
  {
    seq(|queue|, i requires 0 <= i < |queue| => queue[i].fan)
  }

  /** Every fan listed gets a window up to `until`, whether or not an older one was open. */
  function Opened(windows: map<Id, Time>, fans: seq<Id>, until: Time): map<Id, Time> {
    windows + map fan | fan in fans :: until
  }

  // ---- runs ----

  datatype Joining = Drawn(fan: Id, number: nat)

  /** The event's Redis keys, joins between their two commands, ticks between read and pop, and the admissions so far. */
  datatype State = State(
    counter: nat, queue: seq<Entry>, joins: map<nat, Joining>, nextJoin: nat,
    ticks: map<nat, nat>, nextTick: nat, admitted: seq<Entry>)

  const START := State(0, [], map[], 0, map[], 0, [])

  datatype Action =
    | Incr(fan: Id)                         // first command of a join
    | ZAdd(join: nat)                       // its second command
    | DropJoin(join: nat)                   // a join that dies in between
    | TickRead(available: nat, cap: int)    // a tick reads the length and decides how many to admit
    | TickPop(tick: nat)                    // and pops them
    | DropTick(tick: nat)

  function Step(s: State, a: Action): State {
    match a
    case Incr(fan) =>
      s.(counter := s.counter + 1, joins := s.joins[s.nextJoin := Drawn(fan, s.counter + 1)], nextJoin := s.nextJoin + 1)
    case ZAdd(join) =>
      if join in s.joins then
        s.(queue := ZAddNX(s.queue, Entry(s.joins[join].fan, s.joins[join].number)), joins := s.joins - {join})
      else s
    case DropJoin(join) => s.(joins := s.joins - {join})
    case TickRead(available, cap) =>
      s.(ticks := s.ticks[s.nextTick := AdmitCount(|s.queue|, available, cap)], nextTick := s.nextTick + 1)
    case TickPop(tick) =>
      if tick in s.ticks then
        var n := PopCount(s.queue, s.ticks[tick]);
        s.(queue := s.queue[n..], admitted := s.admitted + s.queue[..n], ticks := s.ticks - {tick})
      else s
    case DropTick(tick) => s.(ticks := s.ticks - {tick})
  }

  function Exec(s: State, run: seq<Action>): State
    decreases run
  {
    if run == [] then s else Exec(Step(s, run[0]), run[1..])
  }

  /** `ZPOPMIN`: the n lowest scores leave the set. */
  function Popped(s: State, n: nat): State
    requires n <= |s.queue|
  {
    s.(queue := s.queue[n..], admitted := s.admitted + s.queue[..n])
  }

  // ---- the methods are runs ----

  lemma {:induction false} ExecConcat(s: State, a: seq<Action>, b: seq<Action>)
    ensures Exec(s, a + b) == Exec(Exec(s, a), b)
    decreases a
  {
    hide Step;
    if a == [] {
      assert a + b == b;
    } else {
      assert (a + b)[1..] == a[1..] + b;
      ExecConcat(Step(s, a[0]), a[1..], b);
    }
  }

  lemma ExecOne(s: State, a: Action)
    ensures Exec(s, [a]) == Step(s, a)
  {
    hide Step;
    assert [a][1..] == [];
  }

  /** Nobody else finishes or drops this join. */
  ghost predicate LeavesJoin(run: seq<Action>, join: nat) {
    forall k | 0 <= k < |run| :: run[k] != ZAdd(join) && run[k] != DropJoin(join)
  }

  lemma {:induction false} JoinStands(s: State, run: seq<Action>, join: nat)
    requires join in s.joins && join < s.nextJoin && LeavesJoin(run, join)
    ensures join in Exec(s, run).joins && Exec(s, run).joins[join] == s.joins[join]
    decreases run
  {
    if run != [] {
      hide ZAddNX, AdmitCount, PopCount;
      assert LeavesJoin(run[1..], join);
      JoinStands(Step(s, run[0]), run[1..], join);
    }
  }

  lemma JoinSoFar(s: State, fan: Id, between: seq<Action>)
    requires LeavesJoin(between, s.nextJoin)
    ensures
      var t := Exec(Step(s, Incr(fan)), between);
      s.nextJoin in t.joins && t.joins[s.nextJoin] == Drawn(fan, s.counter + 1)
  {
    JoinStands(Step(s, Incr(fan)), between, s.nextJoin);
  }

  lemma JoinEnds(s: State, fan: Id, between: seq<Action>, last: Action, after: seq<Action>)
    ensures Exec(s, [Incr(fan)] + between + [last]) == Step(Exec(Step(s, Incr(fan)), between), last)
    ensures Exec(s, [Incr(fan)] + between + [last] + after) == Exec(Step(Exec(Step(s, Incr(fan)), between), last), after)
  {
    hide Exec, Step;
    ExecConcat(s, [Incr(fan)] + between + [last], after);
    ExecConcat(s, [Incr(fan)] + between, [last]);
    ExecConcat(s, [Incr(fan)], between);
    ExecOne(s, Incr(fan));
    ExecOne(Exec(Step(s, Incr(fan)), between), last);
  }

  lemma NoCommands(s: State)
    ensures Exec(s, []) == s
  {
  }

  lemma UninterruptedJoinIs(s: State, fan: Id)
    ensures
      var t := Exec(s, [Incr(fan)] + [] + [ZAdd(s.nextJoin)] + []);
      t.counter == s.counter + 1 && t.queue == ZAddNX(s.queue, Entry(fan, s.counter + 1))
  {
    hide Insert, ZAddNX;
    var t := Step(s, Incr(fan));
    JoinEnds(s, fan, [], ZAdd(s.nextJoin), []);
    NoCommands(t);
    NoCommands(Step(t, ZAdd(s.nextJoin)));
    hide Exec;
  }

  /** Without commands of others in between, the fan stands in the queue afterwards. */
  lemma UninterruptedJoinIsQueued(s: State, fan: Id)
    ensures IsQueued(Exec(s, [Incr(fan)] + [] + [ZAdd(s.nextJoin)] + []).queue, fan)
  {
    hide Exec, Step, ZAddNX;
    UninterruptedJoinIs(s, fan);
    InsertedIsQueued(s.queue, Entry(fan, s.counter + 1));
  }

  /** A tick that nobody interferes with admits its whole quota from the front. */
  lemma TickIsARun(s: State, available: nat, cap: int)
    ensures
      var n := AdmitCount(|s.queue|, available, cap);
      var t := Exec(s, [TickRead(available, cap)] + [TickPop(s.nextTick)]);
      t.queue == s.queue[n..] && t.admitted == s.admitted + s.queue[..n]
  {
    hide Exec;
    ExecConcat(s, [TickRead(available, cap)], [TickPop(s.nextTick)]);
    ExecOne(s, TickRead(available, cap));
    ExecOne(Step(s, TickRead(available, cap)), TickPop(s.nextTick));
  }

  // ---- the code ----

  /** How Redis answers a join: all commands succeed, or this one fails. */
  datatype JoinReply = AllWell | IncrFails | ZAddFails | RankFails

  /** `NotQueued` is what a fan gets who was admitted between joining and asking for the rank. */
  datatype JoinResult = At(position: nat) | NotQueued | Failed

  datatype QueueStatus = Admitted | Waiting(position: nat) | Nowhere | Unknown

  class Room {
    var s: State
    var windows: map<Id, Time>

    constructor ()
      ensures s == START && windows == map[]
    {
      s, windows := START, map[];
    }

    /**
     The two commands of a join and the question for the rank, with the other callers' commands
     `between` and `after` them. The fan is added under the number drawn first.
     */
    method Join(fan: Id, between: seq<Action>, after: seq<Action>, reply: JoinReply) returns (result: JoinResult)
      requires LeavesJoin(between, s.nextJoin)
      modifies this`s
      ensures
        var incr, join := [Incr(fan)], old(s.nextJoin);
        s == match reply
             case IncrFails => old(s)
             case ZAddFails => Exec(old(s), incr + between + [DropJoin(join)])
             case _ => Exec(old(s), incr + between + [ZAdd(join)] + after)
      ensures result.Failed? <==> reply != AllWell
      ensures result.NotQueued? <==> reply == AllWell && !IsQueued(s.queue, fan)
      ensures result.At? ==>
        0 < result.position <= |s.queue| && s.queue[result.position - 1].fan == fan
    {
      if reply == IncrFails { return Failed; }
      ghost var s0 := s;
      var number, join := s.counter + 1, s.nextJoin;
      s := s.(counter := number, joins := s.joins[join := Drawn(fan, number)], nextJoin := join + 1);
      s := Exec(s, between);
      JoinSoFar(s0, fan, between);
      assert s.joins[join] == Drawn(fan, number);
      if reply == ZAddFails {
        s := s.(joins := s.joins - {join});
        JoinEnds(s0, fan, between, DropJoin(join), []);
        return Failed;
      }
      s := s.(queue := ZAddNX(s.queue, Entry(fan, number)), joins := s.joins - {join});
      s := Exec(s, after);
      JoinEnds(s0, fan, between, ZAdd(join), after);
      if reply == RankFails { return Failed; }
      var position := Position(fan);
      result := if position.Some? then At(position.value) else NotQueued;
    }

    /** The 1-based rank, or None where the code reports ErrNotQueued. */
    method Position(fan: Id) returns (position: Option<nat>)
      ensures position.None? <==> !IsQueued(s.queue, fan)
      ensures position.Some? ==>
        && 0 < position.value <= |s.queue| && s.queue[position.value - 1].fan == fan
        && forall i | 0 <= i < position.value - 1 :: s.queue[i].fan != fan
    {
      for i := 0 to |s.queue|
        invariant forall k | 0 <= k < i :: s.queue[k].fan != fan
      {
        if s.queue[i].fan == fan {
          return Some(i + 1);
        }
      }
      position := None;
    }

    /**
     Pops the lowest scores, then opens a window for each popped fan, in queue order. A failed pop
     changes nothing; when marking fails, only the first `reply.marked` windows were written, the
     call reports an error and the popped fans are gone from the queue all the same.
     */
    method Admit(count: int, ttl: int, now: Time, reply: Reply) returns (admitted: Option<seq<Id>>)
      modifies this`s, this`windows
      ensures
        var n := if reply.PopFails? then 0 else PopCount(old(s.queue), count);
        && s == Popped(old(s), n)
        && windows == Opened(old(windows), Fans(old(s.queue)[..Marked(n, reply)]), now + ttl)
        && (admitted.Some? <==> count <= 0 || (!reply.PopFails? && (n == 0 || !reply.MarkFails?)))
        && (admitted.Some? ==> admitted.value == Fans(old(s.queue)[..n]))
      ensures admitted.Some? ==> forall fan, t | fan in admitted.value :: IsAdmitted(fan, t) <==> t < now + ttl
      ensures admitted.Some? ==> forall fan | fan !in admitted.value ::
        (fan in windows <==> fan in old(windows)) && (fan in windows ==> windows[fan] == old(windows)[fan])
    {
      hide Fans, Opened;
      if count <= 0 || reply.PopFails? {
        FansNone(s.queue);
        OpenedNone(windows, now + ttl);
        PoppedNone(s);
        return if count <= 0 then Some([]) else None;
      }
      var n := PopCount(s.queue, count);
      var popped := s.queue[..n];
      s := Popped(s, n);
      assert popped[..Marked(n, reply)] == old(s.queue)[..Marked(n, reply)];
      var ids := Mark(popped, now + ttl, Marked(n, reply));
      admitted := if n > 0 && reply.MarkFails? then None else Some(ids);
      OpenedAdmits(old(windows), Fans(popped[..Marked(n, reply)]), now + ttl);
      if admitted.Some? {
        assert Marked(n, reply) == n && popped[..n] == popped;
      }
    }

    /** The pipeline of SETs, of which the first `marked` take effect. */
    method Mark(popped: seq<Entry>, until: Time, marked: nat) returns (ids: seq<Id>)
      requires marked <= |popped|
      modifies this`windows
      ensures ids == Fans(popped)
      ensures windows == Opened(old(windows), Fans(popped[..marked]), until)
    {
      hide Fans, Opened;
      ids := [];
      FansNone(popped);
      OpenedNone(windows, until);
      for i := 0 to |popped|
        invariant ids == Fans(popped[..i])
        invariant windows == Opened(old(windows), Fans(popped[..if i < marked then i else marked]), until)
      {
        FansGrow(popped, i);
        if i < marked {
          OpenedGrows(old(windows), Fans(popped[..i]), popped[i].fan, until);
          windows := windows[popped[i].fan := until];
        }
        ids := ids + [popped[i].fan];
      }
      assert popped[..|popped|] == popped;
    }

    /** Whether the fan has an open window, which is what HoldSeat asks first. */
    predicate IsAdmitted(fan: Id, now: Time)
      reads this
    {
      fan in windows && now < windows[fan]
    }

    /** Admitted takes precedence: a fan who rejoined while a window was open is told to go ahead. */
    method Status(fan: Id, now: Time, windowFails: bool, rankFails: bool) returns (status: QueueStatus)
      ensures status.Admitted? <==> !windowFails && IsAdmitted(fan, now)
      ensures status.Nowhere? <==> !windowFails && !IsAdmitted(fan, now) && !rankFails && !IsQueued(s.queue, fan)
      ensures status.Unknown? <==> windowFails || (!IsAdmitted(fan, now) && rankFails)
      ensures status.Waiting? ==> 0 < status.position <= |s.queue| && s.queue[status.position - 1].fan == fan
    {
      if windowFails { return Unknown; }
      if fan in windows && now < windows[fan] { return Admitted; }
      if rankFails { return Unknown; }
      var position := Position(fan);
      status := if position.Some? then Waiting(position.value) else Nowhere;
    }
  }

  lemma FansGrow(queue: seq<Entry>, i: nat)
    requires i < |queue|
    ensures Fans(queue[..i + 1]) == Fans(queue[..i]) + [queue[i].fan]
  {
    assert queue[..i + 1] == queue[..i] + [queue[i]];
  }

  lemma FansNone(queue: seq<Entry>)
    ensures Fans(queue[..0]) == []
  {
  }

  lemma OpenedNone(windows: map<Id, Time>, until: Time)
    ensures Opened(windows, [], until) == windows
  {
  }

  lemma PoppedNone(s: State)
    ensures Popped(s, 0) == s
  {
    assert s.queue[0..] == s.queue && s.queue[..0] == [] && s.admitted + [] == s.admitted;
  }

  lemma OpenedAdmits(windows: map<Id, Time>, fans: seq<Id>, until: Time)
    ensures forall fan | fan in fans :: fan in Opened(windows, fans, until) && Opened(windows, fans, until)[fan] == until
    ensures forall fan | fan !in fans ::
      && (fan in Opened(windows, fans, until) <==> fan in windows)
      && (fan in windows ==> Opened(windows, fans, until)[fan] == windows[fan])
  {
  }

  lemma OpenedGrows(windows: map<Id, Time>, fans: seq<Id>, fan: Id, until: Time)
    ensures Opened(windows, fans + [fan], until) == Opened(windows, fans, until)[fan := until]
  {
  }

  // ---- facts about the sorted set ----

  ghost predicate Sorted(queue: seq<Entry>) {
    forall i, j | 0 <= i < j < |queue| :: queue[i].score < queue[j].score
  }

  lemma {:induction false} InsertAt(queue: seq<Entry>, e: Entry) returns (p: nat)
    requires Sorted(queue) && forall i | 0 <= i < |queue| :: queue[i].score != e.score
    ensures p <= |queue| && Insert(queue, e) == queue[..p] + [e] + queue[p..]
    ensures forall i | 0 <= i < p :: queue[i].score < e.score
    ensures forall i | p <= i < |queue| :: e.score < queue[i].score
    decreases queue
  {
    if queue == [] || e.score < queue[0].score {
      p := 0;
    } else {
      var q := InsertAt(queue[1..], e);
      p := q + 1;
      assert queue[..p] == [queue[0]] + queue[1..][..q] && queue[p..] == queue[1..][q..];
      forall i | p <= i < |queue| ensures e.score < queue[i].score {
        assert queue[i] == queue[1..][i - 1];
      }
      forall i | 0 <= i < p ensures queue[i].score < e.score {
        if i > 0 { assert queue[i] == queue[1..][i - 1]; }
      }
    }
  }

  lemma {:induction false} InsertedIsQueued(queue: seq<Entry>, e: Entry)
    ensures IsQueued(ZAddNX(queue, e), e.fan)
    decreases queue
  {
    if !IsQueued(queue, e.fan) {
      InsertContains(queue, e);
    }
  }

  lemma {:induction false} InsertContains(queue: seq<Entry>, e: Entry)
    ensures e in Insert(queue, e)
    ensures forall x :: x in Insert(queue, e) <==> x == e || x in queue
    decreases queue
  {
    if !(queue == [] || e.score < queue[0].score) {
      InsertContains(queue[1..], e);
      assert queue == [queue[0]] + queue[1..];
    }
  }

  // ---- what every command keeps ----

  /** A queue in score order in which every fan stands once. */
  ghost predicate QueueOk(queue: seq<Entry>) {
    && Sorted(queue)
    && forall i, j | 0 <= i < j < |queue| :: queue[i].fan != queue[j].fan
  }

  /** A number is handed out once: it is with one pending join, in the queue or admitted, or lost. */
  ghost predicate NumbersOk(s: State) {
    && (forall e | e in s.queue :: e.score <= s.counter)
    && (forall e | e in s.admitted :: e.score <= s.counter)
    && (forall d, e | d in s.queue && e in s.admitted :: d.score != e.score)
    && (forall c | c in s.joins :: c < s.nextJoin && s.joins[c].number <= s.counter)
    && (forall c, d | c in s.joins && d in s.joins && c != d :: s.joins[c].number != s.joins[d].number)
    && (forall c, e | c in s.joins && e in s.queue :: s.joins[c].number != e.score)
    && (forall c, e | c in s.joins && e in s.admitted :: s.joins[c].number != e.score)
  }

  ghost predicate AdmittedOnce(admitted: seq<Entry>) {
    forall i, j | 0 <= i < j < |admitted| :: admitted[i].score != admitted[j].score
  }

  ghost predicate Inv(s: State) {
    QueueOk(s.queue) && NumbersOk(s) && AdmittedOnce(s.admitted)
  }

  lemma InsertKeepsQueue(queue: seq<Entry>, e: Entry)
    requires QueueOk(queue) && !IsQueued(queue, e.fan)
    requires forall i | 0 <= i < |queue| :: queue[i].score != e.score
    ensures QueueOk(Insert(queue, e))
  {
    hide Insert;
    var p := InsertAt(queue, e);
    SpliceKeepsQueue(queue, e, p, Insert(queue, e));
  }

  lemma SpliceKeepsQueue(queue: seq<Entry>, e: Entry, p: nat, q: seq<Entry>)
    requires QueueOk(queue) && !IsQueued(queue, e.fan) && p <= |queue| && q == queue[..p] + [e] + queue[p..]
    requires forall i | 0 <= i < p :: queue[i].score < e.score
    requires forall i | p <= i < |queue| :: e.score < queue[i].score
    ensures QueueOk(q)
  {
    assert forall i | 0 <= i < |queue| :: queue[i].fan != e.fan;
    hide IsQueued;
    forall i, j | 0 <= i < j < |q| ensures q[i].score < q[j].score && q[i].fan != q[j].fan {
      var x, y := q[i], q[j];
      assert x == if i < p then queue[i] else if i == p then e else queue[i - 1];
      assert y == if j < p then queue[j] else if j == p then e else queue[j - 1];
    }
  }

  lemma ZAddKeeps(s: State, join: nat)
    requires Inv(s) && join in s.joins
    ensures Inv(Step(s, ZAdd(join)))
  {
    hide Insert;
    var e := Entry(s.joins[join].fan, s.joins[join].number);
    if !IsQueued(s.queue, e.fan) {
      InsertKeepsQueue(s.queue, e);
      InsertContains(s.queue, e);
    }
  }

  lemma TickPopKeeps(s: State, tick: nat)
    requires Inv(s) && tick in s.ticks
    ensures Inv(Step(s, TickPop(tick)))
  {
    var n := PopCount(s.queue, s.ticks[tick]);
    var t := Step(s, TickPop(tick));
    forall e ensures e in t.queue ==> e in s.queue {}
    forall e ensures e in t.admitted ==> e in s.admitted || e in s.queue {}
    forall i, j | 0 <= i < j < |t.admitted| ensures t.admitted[i].score != t.admitted[j].score {
      if i < |s.admitted| <= j {
        assert t.admitted[i] in s.admitted && t.admitted[j] in s.queue;
      }
    }
    forall d, e | d in t.queue && e in t.admitted ensures d.score != e.score {
      PoppedIsBefore(s.queue, n, e, d);
    }
  }

  lemma PoppedIsBefore(queue: seq<Entry>, n: nat, u: Entry, v: Entry)
    requires n <= |queue| && Sorted(queue)
    ensures u in queue[..n] && v in queue[n..] ==> u.score < v.score
  {
  }

  lemma OtherKeeps(s: State, a: Action)
    requires Inv(s) && !a.ZAdd? && !a.TickPop?
    ensures Inv(Step(s, a))
  {
    hide Sorted, AdmittedOnce, AdmitCount, PopCount, ZAddNX;
  }

  lemma StepKeeps(s: State, a: Action)
    requires Inv(s)
    ensures Inv(Step(s, a))
  {
    hide Inv;
    match a
    case ZAdd(join) => if join in s.joins { ZAddKeeps(s, join); }
    case TickPop(tick) => if tick in s.ticks { TickPopKeeps(s, tick); }
    case _ => OtherKeeps(s, a);
  }

  lemma StartOk()
    ensures Inv(START)
  {
  }

  lemma {:induction false} ExecKeeps(s: State, run: seq<Action>)
    requires Inv(s)
    ensures Inv(Exec(s, run))
    decreases run
  {
    hide Inv, Step;
    if run != [] {
      StepKeeps(s, run[0]);
      ExecKeeps(Step(s, run[0]), run[1..]);
    }
  }

  // ---- a new fan goes last ----

  lemma {:induction false} InsertLast(queue: seq<Entry>, e: Entry)
    requires forall i | 0 <= i < |queue| :: queue[i].score < e.score
    ensures Insert(queue, e) == queue + [e]
    decreases queue
  {
    if queue != [] {
      InsertLast(queue[1..], e);
      assert queue == [queue[0]] + queue[1..];
    }
  }

  /** A join that nobody interferes with puts a new fan at the end under the next number, and leaves a queued one alone. */
  lemma UninterruptedJoinGoesLast(run: seq<Action>, fan: Id)
    ensures
      var s := Exec(START, run);
      var t := Exec(s, [Incr(fan)] + [] + [ZAdd(s.nextJoin)] + []);
      && t.counter == s.counter + 1
      && t.queue == if IsQueued(s.queue, fan) then s.queue else s.queue + [Entry(fan, s.counter + 1)]
  {
    var s := Exec(START, run);
    StartOk();
    ExecKeeps(START, run);
    UninterruptedJoinIs(s, fan);
    hide Exec;
    assert forall i | 0 <= i < |s.queue| :: s.queue[i] in s.queue;
    if !IsQueued(s.queue, fan) { InsertLast(s.queue, Entry(fan, s.counter + 1)); }
  }

  // ---- first come, first served ----

  /** Nothing leaves the admissions, and a queued entry stays as it is or is admitted. */
  lemma StepMovesNobody(s: State, a: Action, v: Entry)
    ensures s.admitted <= Step(s, a).admitted
    ensures v in s.queue ==> v in Step(s, a).queue || v in Step(s, a).admitted[|s.admitted|..]
  {
    hide Insert;
    if a.ZAdd? && a.join in s.joins {
      InsertContains(s.queue, Entry(s.joins[a.join].fan, s.joins[a.join].number));
    }
    if a.TickPop? && a.tick in s.ticks && v in s.queue {
      var n := PopCount(s.queue, s.ticks[a.tick]);
      assert s.queue == s.queue[..n] + s.queue[n..];
      assert Step(s, a).admitted[|s.admitted|..] == s.queue[..n];
    }
  }

  lemma {:induction false} RunMovesNobody(s: State, later: seq<Action>, v: Entry)
    ensures s.admitted <= Exec(s, later).admitted
    ensures v in s.queue ==> v in Exec(s, later).queue || v in Exec(s, later).admitted
    decreases later
  {
    hide Step;
    if later != [] {
      StepMovesNobody(s, later[0], v);
      RunMovesNobody(Step(s, later[0]), later[1..], v);
    }
  }

  /**
   Rejoining never moves a queued fan: whatever is run, a waiting fan either still waits with the
   number that was fixed first, and with no other, or has been admitted with it.
   */
  lemma KeepsPlace(run: seq<Action>, later: seq<Action>, v: Entry)
    requires v in Exec(START, run).queue
    ensures
      var t := Exec(Exec(START, run), later);
      && (v in t.queue <==> v !in t.admitted)
      && (v in t.queue ==> forall w | w in t.queue && w.fan == v.fan :: w == v)
  {
    var s := Exec(START, run);
    ExecKeeps(START, run);
    ExecKeeps(s, later);
    RunMovesNobody(s, later, v);
  }

  lemma StepIsFifo(s: State, a: Action, v: Entry, u: Entry)
    requires Inv(s) && v in s.queue && v in Step(s, a).queue
    requires s.admitted <= Step(s, a).admitted && u in Step(s, a).admitted[|s.admitted|..]
    ensures u.score < v.score
  {
    hide NumbersOk, AdmittedOnce, Insert, ZAddNX, AdmitCount;
    if a.TickPop? && a.tick in s.ticks {
      var n := PopCount(s.queue, s.ticks[a.tick]);
      assert Step(s, a).admitted[|s.admitted|..] == s.queue[..n];
      PoppedIsBefore(s.queue, n, u, v);
    }
  }

  lemma {:induction false} RunIsFifo(s: State, later: seq<Action>, v: Entry, u: Entry)
    requires Inv(s) && v in s.queue && v in Exec(s, later).queue
    requires s.admitted <= Exec(s, later).admitted && u in Exec(s, later).admitted[|s.admitted|..]
    ensures u.score < v.score
    decreases later
  {
    hide Step;
    if later != [] {
      var a, rest := later[0], later[1..];
      var mid := Step(s, a);
      StepKeeps(s, a);
      StepMovesNobody(s, a, v);
      RunMovesNobody(mid, rest, v);
      ExecKeeps(mid, rest);
      assert v in mid.queue by {
        assert v !in Exec(mid, rest).admitted;
      }
      if u in mid.admitted[|s.admitted|..] {
        StepIsFifo(s, a, v, u);
      } else {
        RunIsFifo(mid, rest, v, u);
      }
    }
  }

  /**
   First come, first served. While a fan waits, everybody admitted drew a smaller number, that is,
   sent INCR earlier, however the two commands of joins, reads and pops interleave. Numbers in the
   queue are distinct and no number is admitted twice.
   */
  lemma FirstComeFirstServed(run: seq<Action>, later: seq<Action>, v: Entry, u: Entry)
    ensures
      var s := Exec(START, run);
      var t := Exec(s, later);
      && s.admitted <= t.admitted
      && (v in s.queue && v in t.queue && u in t.admitted[|s.admitted|..] ==> u.score < v.score)
      && Sorted(t.queue) && AdmittedOnce(t.admitted)
  {
    var s := Exec(START, run);
    ExecKeeps(START, run);
    ExecKeeps(s, later);
    RunMovesNobody(s, later, v);
    if v in s.queue && v in Exec(s, later).queue && u in Exec(s, later).admitted[|s.admitted|..] {
      RunIsFifo(s, later, v, u);
    }
  }

  // ---- bounded wait ----

  /**
   `v` waits at index i; no join that drew an earlier number is in flight; ticks in flight that are
   not older than `since` will admit enough.
   */
  ghost predicate Waits(s: State, v: Entry, i: nat, c: nat, since: nat) {
    && since <= s.nextTick
    && i < |s.queue| && s.queue[i] == v
    && (forall j | j in s.joins :: v.score < s.joins[j].number)
    && (forall k | k in s.ticks && k >= since :: s.ticks[k] >= c || s.ticks[k] > i)
  }

  predicate Generous(a: Action, c: nat) {
    a.TickRead? ==> c <= a.available && c <= a.cap
  }

  predicate Pops(s: State, a: Action, since: nat) {
    a.TickPop? && a.tick in s.ticks && a.tick >= since
  }

  /** Ticks not older than `since` that get as far as popping in the run. */
  function Ticks(s: State, run: seq<Action>, since: nat): nat
    decreases run
  {
    if run == [] then 0
    else (if Pops(s, run[0], since) then 1 else 0) + Ticks(Step(s, run[0]), run[1..], since)
  }

  lemma PopAdvances(s: State, tick: nat, v: Entry, i: nat, c: nat, since: nat)
    requires Waits(s, v, i, c, since) && tick in s.ticks
    ensures var t := Step(s, TickPop(tick));
      v in t.admitted
      || exists j: nat :: j + (if tick >= since then c else 0) <= i && Waits(t, v, j, c, since)
  {
    var n := PopCount(s.queue, s.ticks[tick]);
    var t := Step(s, TickPop(tick));
    if i < n {
      assert s.queue[..n][i] == v;
    } else {
      assert Waits(t, v, i - n, c, since);
    }
  }

  lemma OthersDontJumpTheQueue(s: State, a: Action, v: Entry, i: nat, c: nat, since: nat)
    requires Inv(s) && Waits(s, v, i, c, since) && Generous(a, c)
    requires !(a.TickPop? && a.tick in s.ticks)
    ensures Waits(Step(s, a), v, i, c, since)
  {
    hide Insert, QueueOk, AdmittedOnce;
    if a.ZAdd? && a.join in s.joins {
      ZAddBehind(s, a.join, v, i, c, since);
    } else {
      hide ZAddNX;
      assert v in s.queue;
    }
  }

  lemma ZAddBehind(s: State, join: nat, v: Entry, i: nat, c: nat, since: nat)
    requires Inv(s) && Waits(s, v, i, c, since) && join in s.joins
    ensures Waits(Step(s, ZAdd(join)), v, i, c, since)
  {
    hide Insert, AdmittedOnce;
    var e := Entry(s.joins[join].fan, s.joins[join].number);
    if !IsQueued(s.queue, e.fan) {
      var p := InsertAt(s.queue, e);
    }
  }

  lemma {:induction false} WaitShrinks(s: State, later: seq<Action>, v: Entry, i: nat, c: nat, since: nat)
    requires Inv(s) && Waits(s, v, i, c, since)
    requires forall a | a in later :: Generous(a, c)
    requires i < c * Ticks(s, later, since)
    ensures v in Exec(s, later).admitted
    decreases later
  {
    hide Step, Inv, Waits, Generous;
    if later != [] {
      var a, rest := later[0], later[1..];
      var t := Step(s, a);
      StepKeeps(s, a);
      OneMoreTime(c, Ticks(t, rest, since));
      if a.TickPop? && a.tick in s.ticks {
        PopAdvances(s, a.tick, v, i, c, since);
        if v in t.admitted {
          RunMovesNobody(t, rest, v);
        } else {
          var j: nat :| j + (if a.tick >= since then c else 0) <= i && Waits(t, v, j, c, since);
          WaitShrinks(t, rest, v, j, c, since);
        }
      } else {
        OthersDontJumpTheQueue(s, a, v, i, c, since);
        WaitShrinks(t, rest, v, i, c, since);
      }
    }
  }

  lemma OneMoreTime(c: nat, n: nat)
    ensures c * (1 + n) == c + c * n && c * (0 + n) == c * n
  {
  }

  lemma CeilingCovers(p: nat, c: nat, k: nat)
    requires c > 0 && k >= (p + c - 1) / c
    ensures p <= c * k
  {
    var q := (p + c - 1) / c;
    assert p + c - 1 == c * q + (p + c - 1) % c;
    assert c * q <= c * k;
  }

  /**
   Bounded wait. A fan at 1-based position p with no earlier-numbered join in flight is admitted
   once ceil(p / c) ticks that read the queue from now on have popped, as long as each of them sees
   at least c available units and a cap of at least c, whoever joins meanwhile and whatever older
   ticks still do.
   */
  lemma BoundedWait(run: seq<Action>, later: seq<Action>, p: nat, c: nat)
    requires c > 0
    requires 0 < p <= |Exec(START, run).queue|
    requires forall j | j in Exec(START, run).joins ::
      Exec(START, run).queue[p - 1].score < Exec(START, run).joins[j].number
    requires forall a | a in later :: Generous(a, c)
    requires Ticks(Exec(START, run), later, Exec(START, run).nextTick) >= (p + c - 1) / c
    ensures Exec(START, run).queue[p - 1] in Exec(Exec(START, run), later).admitted
  {
    hide Step, Inv, Exec, Generous, Ticks;
    var s := Exec(START, run);
    CeilingCovers(p, c, Ticks(s, later, s.nextTick));
    StartOk();
    ExecKeeps(START, run);
    TicksAreOlder(run);
    WaitShrinks(s, later, s.queue[p - 1], p - 1, c, s.nextTick);
  }

  /** Every tick in flight was numbered before the next one. */
  ghost predicate TicksNumbered(s: State) {
    forall k | k in s.ticks :: k < s.nextTick
  }

  lemma TicksAreOlder(run: seq<Action>)
    ensures TicksNumbered(Exec(START, run))
  {
    ExecNumbersTicks(START, run);
  }

  lemma {:induction false} ExecNumbersTicks(s: State, run: seq<Action>)
    requires TicksNumbered(s)
    ensures TicksNumbered(Exec(s, run))
    decreases run
  {
    hide ZAddNX, AdmitCount, PopCount;
    if run != [] {
      ExecNumbersTicks(Step(s, run[0]), run[1..]);
    }
  }
}
