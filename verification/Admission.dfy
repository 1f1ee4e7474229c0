/** The admission worker: one tick lets fans through the waiting room of every event on sale. */
module Admission {
  import opened Types
  import opened SeatTable
  import opened Counting
  import opened WaitingRoom

  method Min64(vals: seq<int>) returns (m: int)
    requires vals != []
    ensures m in vals && forall v | v in vals :: m <= v
  {
    m := vals[0];
    for i := 1 to |vals|
      invariant m in vals && forall k | 0 <= k < i :: m <= vals[k]
    {
      if vals[i] < m { m := vals[i]; }
    }
  }

  /** One event of a tick: its room, its rows, the grouping query's answer, and which calls fail. */
  datatype Visit = Visit(
    room: Room, rows: map<Id, Row>, tenant: Id, event: Id, groups: seq<Group>,
    lengthFails: bool, countFails: bool, reply: Reply)

  ghost predicate Honest(v: Visit) {
    IsGrouping(v.groups, v.rows, v.tenant, v.event)
  }

  /** How many fans the visit's policy calls for. */
  function Quota(v: Visit, length: nat, cap: int): nat {
    AdmitCount(length, |AvailableUnits(v.rows, v.tenant, v.event)|, cap)
  }

  /** How many fans leave the queue. */
  function Leaving(v: Visit, length: nat, cap: int): nat {
    if v.lengthFails || v.countFails || v.reply.PopFails? then 0 else Quota(v, length, cap)
  }

  /** Some call that the visit gets as far as making fails. */
  predicate Fails(v: Visit, length: nat, cap: int) {
    || v.lengthFails
    || (length > 0 && v.countFails)
    || (Quota(v, length, cap) > 0 && v.reply != Done)
  }

  /** `admitForEvent`: the front of the queue is admitted, as many as the quota says, or an error is reported. */
  method AdmitForEvent(v: Visit, cap: int, ttl: int, now: Time) returns (admitted: Option<nat>)
    requires Honest(v)
    modifies v.room`s, v.room`windows
    ensures
      var queue := old(v.room.s.queue);
      && Leaving(v, |queue|, cap) <= |queue|
      && v.room.s.queue == queue[Leaving(v, |queue|, cap)..]
      && (admitted.None? <==> Fails(v, |queue|, cap))
      && (admitted.None? <==>
            || v.lengthFails
            || (|queue| > 0 && v.countFails)
            || (|queue| > 0 && AvailableUnits(v.rows, v.tenant, v.event) != {} && cap > 0 && v.reply != Done))
      && (admitted.Some? ==> admitted.value == Quota(v, |queue|, cap) == Leaving(v, |queue|, cap))
      && (admitted.Some? ==> admitted.value == |queue| - |v.room.s.queue|)
      && (admitted.Some? ==>
            v.room.windows == Opened(old(v.room.windows), Fans(queue[..admitted.value]), now + ttl))
  {
    hide IsGrouping, AvailableUnits;
    var length := |v.room.s.queue|;
    assert v.room.s.queue[0..] == v.room.s.queue && v.room.s.queue[..0] == [];
    OpenedNone(v.room.windows, now + ttl);
    if v.lengthFails { return None; }
    if length == 0 { return Some(0); }
    if v.countFails { return None; }
    var counts := CountByStatus(v.groups, v.rows, v.tenant, v.event);
    var available := TotalAvailable(counts, v.rows, v.tenant, v.event);
    if available == 0 { return Some(0); }
    var count := Min64([length, available, cap]);
    if count <= 0 { return Some(0); }
    assert count in [length, available, cap] && length in [length, available, cap]
        && available in [length, available, cap] && cap in [length, available, cap];
    assert count == Quota(v, length, cap);
    var ids := v.room.Admit(count, ttl, now, v.reply);
    admitted := if ids.None? then None else Some(|ids.value|);
  }

  // ---- a whole tick ----

  ghost predicate Distinct(visits: seq<Visit>) {
    forall i, j | 0 <= i < j < |visits| :: visits[i].room != visits[j].room
  }

  ghost function Rooms(visits: seq<Visit>): set<Room> {
    set v | v in visits :: v.room
  }

  function Counted(v: Visit, length: nat, cap: int): nat {
    if Fails(v, length, cap) then 0 else Quota(v, length, cap)
  }

  ghost function Queues(visits: seq<Visit>): (queues: seq<seq<Entry>>)
    reads Rooms(visits)
    ensures |queues| == |visits| && forall i | 0 <= i < |visits| :: queues[i] == visits[i].room.s.queue
  {
    if visits == [] then []
    else
      var last := visits[|visits| - 1];
      assert last in visits;
      Queues(visits[..|visits| - 1]) + [last.room.s.queue]
  }

  /** What the visits count together, given the queue each of them finds. */
  function Total(visits: seq<Visit>, queues: seq<seq<Entry>>, cap: int): nat
    requires |queues| == |visits|
  {
    if visits == [] then 0
    else
      var k := |visits| - 1;
      Total(visits[..k], queues[..k], cap) + Counted(visits[k], |queues[k]|, cap)
  }

  lemma TotalNext(visits: seq<Visit>, queues: seq<seq<Entry>>, i: nat, cap: int)
    requires |queues| == |visits| && i < |visits|
    ensures Total(visits[..i + 1], queues[..i + 1], cap)
         == Total(visits[..i], queues[..i], cap) + Counted(visits[i], |queues[i]|, cap)
  {
    assert visits[..i + 1][..i] == visits[..i] && queues[..i + 1][..i] == queues[..i];
  }

  ghost predicate Handled(v: Visit, before: seq<Entry>, after: seq<Entry>, cap: int) {
    Leaving(v, |before|, cap) <= |before| && after == before[Leaving(v, |before|, cap)..]
  }

  /** The first m visits are made and the others are still to come. */
  ghost predicate Made(visits: seq<Visit>, before: seq<seq<Entry>>, m: int, cap: int)
    reads Rooms(visits)
  {
    && 0 <= m <= |visits| == |before| && Distinct(visits)
    && (forall k | 0 <= k < |visits| :: visits[k] in visits && Honest(visits[k]))
    && (forall k | 0 <= k < m :: Handled(visits[k], before[k], visits[k].room.s.queue, cap))
    && (forall k | m <= k < |visits| :: visits[k].room.s.queue == before[k])
  }

  /** One turn of the inner loop: an event that fails is skipped. */
  method VisitEvent(event: Visit, ghost all: seq<Visit>, ghost before: seq<seq<Entry>>, ghost m: nat,
                    cap: int, ttl: int, now: Time) returns (count: nat)
    requires Made(all, before, m, cap) && m < |all| && event == all[m]
    modifies Rooms(all)
    ensures Made(all, before, m + 1, cap)
    ensures count == Counted(event, |before[m]|, cap)
  {
    hide Honest, Leaving, Fails, Quota;
    var admitted := AdmitForEvent(event, cap, ttl, now);
    count := if admitted.Some? then admitted.value else 0;
  }

  /** The inner loop, over the events of one tenant. */
  method AdmitForTenant(events: seq<Visit>, cap: int, ttl: int, now: Time) returns (total: nat)
    requires Distinct(events) && forall v | v in events :: Honest(v)
    modifies Rooms(events)
    ensures AllHandled(events, old(Queues(events)), cap)
    ensures total == Total(events, old(Queues(events)), cap)
  {
    hide Made, Total, Counted, Queues, Rooms, AllHandled, Distinct, Honest;
    ghost var before := Queues(events);
    NothingMade(events, cap);
    total := 0;
    for i := 0 to |events|
      invariant Made(events, before, i, cap)
      invariant total == Total(events[..i], before[..i], cap)
    {
      TotalNext(events, before, i, cap);
      var count := VisitEvent(events[i], events, before, i, cap, ttl, now);
      total := total + count;
    }
    AllMade(events, before, cap);
    assert events[..|events|] == events && before[..|events|] == before;
  }

  lemma NothingMade(events: seq<Visit>, cap: int)
    requires Distinct(events) && forall v | v in events :: Honest(v)
    ensures Made(events, Queues(events), 0, cap) && Total(events[..0], Queues(events)[..0], cap) == 0
  {
    hide Honest;
  }

  lemma AllMade(events: seq<Visit>, before: seq<seq<Entry>>, cap: int)
    requires Made(events, before, |events|, cap)
    ensures AllHandled(events, before, cap)
  {
    hide Honest, Handled;
  }

  /** Every event of the tenant has lost its quota. */
  ghost predicate AllHandled(events: seq<Visit>, before: seq<seq<Entry>>, cap: int)
    reads Rooms(events)
  {
    |before| == |events| && forall k | 0 <= k < |events| :: events[k] in events && Handled(events[k], before[k], events[k].room.s.queue, cap)
  }

  // ---- all tenants ----

  /** A tenant's events on sale, or none where they cannot be listed. */
  function EventsOf(tenant: Option<seq<Visit>>): seq<Visit> {
    if tenant.Some? then tenant.value else []
  }

  ghost predicate Apart(tenants: seq<Option<seq<Visit>>>) {
    && (forall i | 0 <= i < |tenants| :: Distinct(EventsOf(tenants[i])))
    && (forall i, j | 0 <= i < j < |tenants| :: Rooms(EventsOf(tenants[i])) !! Rooms(EventsOf(tenants[j])))
  }

  ghost function AllRooms(tenants: seq<Option<seq<Visit>>>): (rooms: set<Room>)
    ensures forall i | 0 <= i < |tenants| :: Rooms(EventsOf(tenants[i])) <= rooms
  {
    if tenants == [] then {}
    else AllRooms(tenants[..|tenants| - 1]) + Rooms(EventsOf(tenants[|tenants| - 1]))
  }

  ghost function AllQueues(tenants: seq<Option<seq<Visit>>>): (queues: seq<seq<seq<Entry>>>)
    reads AllRooms(tenants)
    ensures |queues| == |tenants| && forall i | 0 <= i < |tenants| :: queues[i] == Queues(EventsOf(tenants[i]))
  {
    if tenants == [] then []
    else AllQueues(tenants[..|tenants| - 1]) + [Queues(EventsOf(tenants[|tenants| - 1]))]
  }

  /** The counts of the first n tenants. */
  ghost function Totals(tenants: seq<Option<seq<Visit>>>, queues: seq<seq<seq<Entry>>>, n: nat, cap: int): nat
    requires n <= |tenants| == |queues|
  {
    if n == 0 then 0
    else
      var events := EventsOf(tenants[n - 1]);
      Totals(tenants, queues, n - 1, cap) + if |queues[n - 1]| == |events| then Total(events, queues[n - 1], cap) else 0
  }

  /** The first n tenants are done and the others untouched. */
  ghost predicate Progress(tenants: seq<Option<seq<Visit>>>, queues: seq<seq<seq<Entry>>>, n: nat, cap: int)
    reads AllRooms(tenants)
  {
    && n <= |tenants| == |queues|
    && (forall i | 0 <= i < n :: AllHandled(EventsOf(tenants[i]), queues[i], cap))
    && (forall i | n <= i < |tenants| :: Queues(EventsOf(tenants[i])) == queues[i])
  }

  /** One turn of the outer loop. */
  method VisitTenant(events: seq<Visit>, ghost tenants: seq<Option<seq<Visit>>>, ghost queues: seq<seq<seq<Entry>>>,
                     ghost n: nat, cap: int, ttl: int, now: Time) returns (count: nat)
    requires Apart(tenants) && Progress(tenants, queues, n, cap) && n < |tenants| && events == EventsOf(tenants[n])
    requires forall v | v in events :: Honest(v)
    modifies AllRooms(tenants)
    ensures Progress(tenants, queues, n + 1, cap)
    ensures |queues[n]| == |events| && count == Total(events, queues[n], cap)
  {
    hide Distinct, Honest, Total, Handled;
    forall i | 0 <= i < |tenants| && i != n ensures Rooms(EventsOf(tenants[i])) !! Rooms(events) {
      assert Rooms(EventsOf(tenants[n])) == Rooms(events);
    }
    count := AdmitForTenant(events, cap, ttl, now);
    forall i | 0 <= i < n ensures AllHandled(EventsOf(tenants[i]), queues[i], cap) {
      assert old(AllHandled(EventsOf(tenants[i]), queues[i], cap));
    }
    forall i | n < i < |tenants| ensures Queues(EventsOf(tenants[i])) == queues[i] {
      assert old(Queues(EventsOf(tenants[i]))) == queues[i];
    }
  }

  lemma SkipTenant(tenants: seq<Option<seq<Visit>>>, queues: seq<seq<seq<Entry>>>, i: nat, cap: int)
    requires i < |tenants| && tenants[i].None? && Progress(tenants, queues, i, cap)
    ensures Progress(tenants, queues, i + 1, cap) && Totals(tenants, queues, i + 1, cap) == Totals(tenants, queues, i, cap)
  {
    assert EventsOf(tenants[i]) == [] && Queues([]) == [];
  }

  /** A tenant whose events cannot be listed is skipped. */
  method NextTenant(tenant: Option<seq<Visit>>, ghost tenants: seq<Option<seq<Visit>>>, ghost queues: seq<seq<seq<Entry>>>,
                    ghost n: nat, cap: int, ttl: int, now: Time) returns (count: nat)
    requires Apart(tenants) && Progress(tenants, queues, n, cap) && n < |tenants| && tenant == tenants[n]
    requires forall v | v in EventsOf(tenant) :: Honest(v)
    modifies AllRooms(tenants)
    ensures Progress(tenants, queues, n + 1, cap)
    ensures Totals(tenants, queues, n + 1, cap) == Totals(tenants, queues, n, cap) + count
  {
    if tenant.Some? {
      hide Apart, Honest, Total, AllHandled, Queues, AllRooms, Rooms;
      count := VisitTenant(tenant.value, tenants, queues, n, cap, ttl, now);
    } else {
      SkipTenant(tenants, queues, n, cap);
      count := 0;
    }
  }

  lemma NothingVisited(tenants: seq<Option<seq<Visit>>>, cap: int)
    ensures Progress(tenants, AllQueues(tenants), 0, cap) && Totals(tenants, AllQueues(tenants), 0, cap) == 0
  {
  }

  // ---- the count by what left the queues ----

  /** The fans that left the queues of the visits that succeeded, by the lengths before and after. */
  function Departed(events: seq<Visit>, before: seq<seq<Entry>>, after: seq<seq<Entry>>, n: nat, cap: int): int
    requires n <= |events| == |before| == |after|
  {
    if n == 0 then 0
    else
      Departed(events, before, after, n - 1, cap)
      + if Fails(events[n - 1], |before[n - 1]|, cap) then 0 else |before[n - 1]| - |after[n - 1]|
  }

  function AllDeparted(tenants: seq<Option<seq<Visit>>>, before: seq<seq<seq<Entry>>>, after: seq<seq<seq<Entry>>>, n: nat, cap: int): int
    requires n <= |tenants| == |before| == |after|
  {
    if n == 0 then 0
    else
      var events := EventsOf(tenants[n - 1]);
      AllDeparted(tenants, before, after, n - 1, cap)
      + if |events| == |before[n - 1]| == |after[n - 1]| then Departed(events, before[n - 1], after[n - 1], |events|, cap) else 0
  }

  lemma {:induction false} TotalIsDeparted(events: seq<Visit>, before: seq<seq<Entry>>, after: seq<seq<Entry>>, n: nat, cap: int)
    requires n <= |events| == |before| == |after|
    requires forall k | 0 <= k < |events| :: Handled(events[k], before[k], after[k], cap)
    ensures Total(events[..n], before[..n], cap) == Departed(events, before, after, n, cap)
  {
    if n > 0 {
      TotalIsDeparted(events, before, after, n - 1, cap);
      TotalNext(events, before, n - 1, cap);
      var v := events[n - 1];
      assert Handled(v, before[n - 1], after[n - 1], cap);
      LeavingIsCounted(v, |before[n - 1]|, cap);
    }
  }

  lemma LeavingIsCounted(v: Visit, length: nat, cap: int)
    ensures !Fails(v, length, cap) ==> Leaving(v, length, cap) == Quota(v, length, cap)
  {
  }

  lemma TenantDeparted(events: seq<Visit>, before: seq<seq<Entry>>, cap: int)
    requires AllHandled(events, before, cap)
    ensures |before| == |events| && Total(events, before, cap) == Departed(events, before, Queues(events), |events|, cap)
  {
    TotalIsDeparted(events, before, Queues(events), |events|, cap);
    assert events[..|events|] == events && before[..|events|] == before;
  }

  lemma OneTenantDeparted(tenants: seq<Option<seq<Visit>>>, before: seq<seq<seq<Entry>>>, i: nat, cap: int)
    requires i < |tenants| && Progress(tenants, before, |tenants|, cap)
    ensures
      var events, after := EventsOf(tenants[i]), AllQueues(tenants)[i];
      && |before| == |tenants| && |events| == |before[i]| == |after|
      && Total(events, before[i], cap) == Departed(events, before[i], after, |events|, cap)
  {
    hide AllHandled, Queues, Total, Departed, AllQueues;
    TenantDeparted(EventsOf(tenants[i]), before[i], cap);
  }

  lemma {:induction false} TotalsAreDeparted(tenants: seq<Option<seq<Visit>>>, before: seq<seq<seq<Entry>>>, n: nat, cap: int)
    requires n <= |tenants| == |before| && Progress(tenants, before, |tenants|, cap)
    ensures Totals(tenants, before, n, cap) == AllDeparted(tenants, before, AllQueues(tenants), n, cap)
    decreases n
  {
    hide Progress, AllQueues, AllRooms, Total, Departed, EventsOf;
    if n > 0 {
      TotalsAreDeparted(tenants, before, n - 1, cap);
      OneTenantDeparted(tenants, before, n - 1, cap);
    }
  }

  /**
   `RunOnce`: every event of every tenant that could be listed loses exactly its quota from the
   front of its queue, whatever happens to the others, and the count returned is the sum over the
   visits that succeed. None is the error of the tenant list.
   */
  method RunOnce(tenants: seq<Option<seq<Visit>>>, listFails: bool, cap: int, ttl: int, now: Time)
    returns (total: Option<nat>)
    requires Apart(tenants) && forall i | 0 <= i < |tenants| :: forall v | v in EventsOf(tenants[i]) :: Honest(v)
    modifies AllRooms(tenants)
    ensures listFails ==> total == None && AllQueues(tenants) == old(AllQueues(tenants))
    ensures !listFails ==>
      && total == Some(Totals(tenants, old(AllQueues(tenants)), |tenants|, cap))
      && Progress(tenants, old(AllQueues(tenants)), |tenants|, cap)
      && total == Some(AllDeparted(tenants, old(AllQueues(tenants)), AllQueues(tenants), |tenants|, cap))
  {
    hide Progress, Totals, Apart, AllQueues, AllRooms, Honest, Rooms;
    if listFails { return None; }
    ghost var queues := AllQueues(tenants);
    NothingVisited(tenants, cap);
    var sum := 0;
    for i := 0 to |tenants|
      invariant |queues| == |tenants| && Progress(tenants, queues, i, cap)
      invariant sum == Totals(tenants, queues, i, cap)
    {
      var count := NextTenant(tenants[i], tenants, queues, i, cap, ttl, now);
      sum := sum + count;
    }
    TotalsAreDeparted(tenants, queues, |tenants|, cap);
    total := Some(sum);
  }
}
