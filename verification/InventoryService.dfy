/** `HoldSeat` behind its Redis gates, and `SweepExpiredHolds` among other callers. */
module InventoryService {
  import opened Types
  import opened SeatTable
  import opened Purchase
  import opened Invariants
  import opened Repositories

  // ---- HoldSeat ----

  /** What a collaborator answers; `Down` is an error. */
  datatype Reply = Yes | No | Down

  datatype HoldAnswer =
    | Granted(token: Id, expires: Time)
    | NotAdmitted | RateLimited | LockContention | SeatUnavailable | Failed

  /**
   Whatever the waiting room, the rate limiter and the lock answer, a call either leaves the
   table alone or is exactly one successful Hold, whose token and expiry are then on the row;
   the lock, once acquired, is released on every path.
   */
  method HoldSeat(db: Database, admitted: Reply, allowed: Reply, lock: Reply, dbDown: bool,
                  tenant: Id, id: Id, user: Id, token: Id, now: Time, holdDuration: int)
    returns (a: HoldAnswer, unlocks: nat)
    modifies db`rows, db`ledger
    ensures a.Granted? <==>
      admitted == allowed == lock == Yes && !dbDown && IsAvailable(old(db.Units()), tenant, id)
    ensures a.Granted? ==>
      && a == Granted(token, now + holdDuration)
      && id in db.rows && db.rows[id].status == Held && db.rows[id].holdToken == Some(token)
      && db.rows[id].heldBy == Some(user) && db.rows[id].holdExpiresAt == Some(now + holdDuration)
      && db.Units() == Hold(old(db.Units()), tenant, id, token, user, now + holdDuration)
      && Carries(db.Units(), tenant, id, token)
      && db.rows[id].holdExpiresAt == Some(a.expires)
      && |db.ledger| == |old(db.ledger)| + 1
    ensures !a.Granted? ==> db.Units() == old(db.Units())
    ensures a == NotAdmitted <==> admitted == No
    ensures a == RateLimited <==> admitted == Yes && allowed == No
    ensures a == LockContention <==> admitted == allowed == Yes && lock == No
    ensures a == SeatUnavailable <==>
      admitted == allowed == lock == Yes && !dbDown && !IsAvailable(old(db.Units()), tenant, id)
    ensures unlocks == if admitted == allowed == lock == Yes then 1 else 0
  {
    if admitted == Down { return Failed, 0; }
    if admitted == No { return NotAdmitted, 0; }
    if allowed == Down { return Failed, 0; }
    if allowed == No { return RateLimited, 0; }
    if lock == Down { return Failed, 0; }
    if lock == No { return LockContention, 0; }
    if dbDown { return Failed, 1; }
    var expires := now + holdDuration;
    var won := db.Hold(tenant, id, token, user, expires);
    if !won { return SeatUnavailable, 1; }
    return Granted(token, expires), 1;
  }

  // ---- SweepExpiredHolds ----

  /** The whole running system, of which the sweep is one actor. */
  class System {
    var s: State

    constructor ()
      ensures s == START
    {
      s := START;
    }
  }

  /** A row of the expired-holds listing. */
  datatype Expired = Expired(id: Id, tenant: Id, token: Option<Id>, expires: Time)

  /** Held, and the expiry is before this time. */
  predicate IsExpired(rows: map<Id, Row>, id: Id, now: Time) {
    id in rows && rows[id].status == Held && rows[id].holdExpiresAt.Some? && rows[id].holdExpiresAt.value < now
  }

  function ExpiryOf(rows: map<Id, Row>, id: Id): Time {
    if id in rows && rows[id].holdExpiresAt.Some? then rows[id].holdExpiresAt.value else 0
  }

  /** The entry copies its row's columns. */
  predicate IsEntry(rows: map<Id, Row>, x: Expired) {
    && x.id in rows && rows[x.id].tenant == x.tenant && rows[x.id].holdToken == x.token
    && rows[x.id].holdExpiresAt == Some(x.expires)
  }

  ghost predicate IsListed(listed: seq<Expired>, id: Id) {
    exists i :: 0 <= i < |listed| && listed[i].id == id
  }

  /** Expired holds, each once, earliest expiry first, and none left out expired before one of them. */
  ghost predicate Earliest(rows: map<Id, Row>, now: Time, listed: seq<Expired>) {
    && (forall i | 0 <= i < |listed| :: IsExpired(rows, listed[i].id, now) && IsEntry(rows, listed[i]))
    && (forall i, j | 0 <= i < j < |listed| :: listed[i].id != listed[j].id && listed[i].expires <= listed[j].expires)
    && (forall i, id | 0 <= i < |listed| && IsExpired(rows, id, now) && !IsListed(listed, id) ::
          listed[i].expires <= ExpiryOf(rows, id))
  }

  /** An answer to `WHERE status = 'held' AND hold_expires_at < now ORDER BY hold_expires_at LIMIT limit`. */
  ghost predicate IsListingOf(rows: map<Id, Row>, now: Time, listed: seq<Expired>, limit: nat) {
    && |listed| <= limit && Earliest(rows, now, listed)
    && (|listed| < limit ==> forall id | IsExpired(rows, id, now) :: IsListed(listed, id))
  }

  ghost predicate IsListing(s: State, listed: seq<Expired>, limit: nat) {
    IsListingOf(s.table.rows, s.now, listed, limit)
  }

  /** The expired hold with the earliest expiry among these units. */
  method EarliestExpired(rows: map<Id, Row>, now: Time, among: set<Id>) returns (m: Option<Id>)
    ensures m.None? ==> forall id | id in among :: !IsExpired(rows, id, now)
    ensures m.Some? ==> m.value in among && IsExpired(rows, m.value, now)
    ensures m.Some? ==> forall id | id in among && IsExpired(rows, id, now) :: ExpiryOf(rows, m.value) <= ExpiryOf(rows, id)
  {
    m := None;
    var todo := among;
    while todo != {}
      invariant todo <= among
      invariant m.None? ==> forall id | id in among - todo :: !IsExpired(rows, id, now)
      invariant m.Some? ==> m.value in among && IsExpired(rows, m.value, now)
      invariant m.Some? ==> forall id | id in among - todo && IsExpired(rows, id, now) :: ExpiryOf(rows, m.value) <= ExpiryOf(rows, id)
      decreases todo
    {
      var id :| id in todo;
      if IsExpired(rows, id, now) && (m.None? || ExpiryOf(rows, id) < ExpiryOf(rows, m.value)) {
        m := Some(id);
      }
      todo := todo - {id};
    }
  }

  lemma EarliestExtends(rows: map<Id, Row>, now: Time, listed: seq<Expired>, rest: set<Id>, x: Expired)
    requires Earliest(rows, now, listed) && IsExpired(rows, x.id, now) && IsEntry(rows, x)
    requires forall id :: id in rest <==> id in rows && !IsListed(listed, id)
    requires x.id in rest && forall id | id in rest && IsExpired(rows, id, now) :: ExpiryOf(rows, x.id) <= ExpiryOf(rows, id)
    ensures Earliest(rows, now, listed + [x])
    ensures forall id :: id in rest - {x.id} <==> id in rows && !IsListed(listed + [x], id)
  {
    var more := listed + [x];
    assert more[|listed|] == x && forall i | 0 <= i < |listed| :: more[i] == listed[i];
    forall id ensures IsListed(more, id) <==> IsListed(listed, id) || id == x.id {
      if i :| 0 <= i < |listed| && listed[i].id == id { assert more[i].id == id; }
    }
    forall i | 0 <= i < |listed| ensures listed[i].id != x.id && listed[i].expires <= x.expires {
      assert IsListed(listed, listed[i].id);
    }
    hide IsListed;
  }

  method ListExpiredHolds(db: Database, now: Time, limit: nat) returns (listed: seq<Expired>)
    ensures IsListingOf(db.rows, now, listed, limit)
  {
    listed := [];
    var rest := db.rows.Keys;
    for i := 0 to limit
      invariant |listed| == i && Earliest(db.rows, now, listed)
      invariant forall id :: id in rest <==> id in db.rows && !IsListed(listed, id)
    {
      var m := EarliestExpired(db.rows, now, rest);
      if m.None? { return; }
      var r := db.rows[m.value];
      var x := Expired.Expired(m.value, r.tenant, r.holdToken, r.holdExpiresAt.value);
      EarliestExtends(db.rows, now, listed, rest, x);
      listed := listed + [x];
      rest := rest - {m.value};
    }
  }

  /** The sweep's own statement for a listed row. */
  function SweepAction(x: Expired): Action {
    if x.token.Some? then ReleaseUnit(x.tenant, x.id, x.token.value) else Tick(0)
  }

  /** The run of the first n rounds: before each release, whatever the others do meanwhile. */
  function Rounds(listed: seq<Expired>, others: nat -> seq<Action>, n: nat): seq<Action>
    requires n <= |listed|
  {
    if n == 0 then [] else Rounds(listed, others, n - 1) + others(n - 1) + [SweepAction(listed[n - 1])]
  }

  /** The state the sweep's k-th release finds. */
  function Found(s: State, listed: seq<Expired>, others: nat -> seq<Action>, k: nat): State
    requires k < |listed|
  {
    Exec(Exec(s, Rounds(listed, others, k)), others(k))
  }

  /** The k-th release matches a row. */
  predicate Frees(s: State, listed: seq<Expired>, others: nat -> seq<Action>, k: nat)
    requires k < |listed|
  {
    var u := Found(s, listed, others, k);
    listed[k].token.Some? && listed[k].id !in u.locks && Carries(u.table, listed[k].tenant, listed[k].id, listed[k].token.value)
  }

  /** The k-th release changes the table. */
  ghost predicate Changes(s: State, listed: seq<Expired>, others: nat -> seq<Action>, k: nat)
    requires k < |listed|
  {
    Step(Found(s, listed, others, k), SweepAction(listed[k])).table != Found(s, listed, others, k).table
  }

  /** The rounds below n in which the sweep's own statement changed the table. */
  ghost function Transitions(s: State, listed: seq<Expired>, others: nat -> seq<Action>, n: nat): set<nat>
    requires n <= |listed|
  {
    set k | 0 <= k < n && Changes(s, listed, others, k)
  }

  /** A release changes the table exactly when its unit is, at that moment, held under the listed token and not locked. */
  lemma FreesIffChanges(s: State, listed: seq<Expired>, others: nat -> seq<Action>, k: nat)
    requires k < |listed|
    ensures Frees(s, listed, others, k) <==> Changes(s, listed, others, k)
  {
    hide Exec, Rounds;
    var u := Found(s, listed, others, k);
    var x := listed[k];
    if x.token.Some? {
      assert Step(u, SweepAction(x)) == DoRelease(u, x.tenant, x.id, x.token.value);
    }
    if Frees(s, listed, others, k) {
      assert Step(u, SweepAction(x)).table.rows[x.id].status == Available;
    }
  }

  lemma NextTransition(s: State, listed: seq<Expired>, others: nat -> seq<Action>, n: nat)
    requires n < |listed|
    ensures |Transitions(s, listed, others, n + 1)|
         == |Transitions(s, listed, others, n)| + if Frees(s, listed, others, n) then 1 else 0
  {
    hide Changes, Frees, Step, Exec, Found, Rounds;
    FreesIffChanges(s, listed, others, n);
    assert Transitions(s, listed, others, n + 1)
        == Transitions(s, listed, others, n) + if Changes(s, listed, others, n) then {n} else {};
  }

  lemma RoundExec(s: State, listed: seq<Expired>, others: nat -> seq<Action>, n: nat)
    requires 0 < n <= |listed|
    ensures Exec(s, Rounds(listed, others, n)) == Step(Found(s, listed, others, n - 1), SweepAction(listed[n - 1]))
  {
    hide Step;
    var before := Rounds(listed, others, n - 1);
    ExecConcat(s, before + others(n - 1), [SweepAction(listed[n - 1])]);
    ExecConcat(s, before, others(n - 1));
    assert [SweepAction(listed[n - 1])][1..] == [];
  }

  /**
   The sweep never frees a live hold: whatever happened since the listing (released, held again,
   sold, withdrawn), a row it frees is at that moment held under exactly the listed token with
   exactly the listed expiry, which lay before the listing time; and the release makes it available.
   */
  lemma SweepFreesOnlyExpiredHolds(s: State, listed: seq<Expired>, limit: nat, others: nat -> seq<Action>, k: nat)
    requires Inv(s) && IsListing(s, listed, limit)
    requires k < |listed| && Frees(s, listed, others, k)
    ensures
      var u := Found(s, listed, others, k);
      var id := listed[k].id;
      && id in u.table.rows && u.table.rows[id].status == Held
      && u.table.rows[id].holdToken == listed[k].token
      && u.table.rows[id].holdExpiresAt == Some(listed[k].expires) && listed[k].expires < s.now
      && Step(u, SweepAction(listed[k])).table == Put(u.table, id, Cleared(u.table.rows[id], Available))
  {
    hide Exec, Rounds, LocksOk, SalesOk, CallsOk, OutboxOk, FailedOk, KeysOk, OrdersOk;
    var u := Found(s, listed, others, k);
    var id := listed[k].id;
    var token := listed[k].token.value;
    assert IsExpired(s.table.rows, listed[k].id, s.now) && IsEntry(s.table.rows, listed[k]);
    assert HoldIssued(s.issued, id, s.table.rows[id]);
    ExecKeeps(s, Rounds(listed, others, k));
    ExecKeeps(Exec(s, Rounds(listed, others, k)), others(k));
    ExecKeepsIssued(s, Rounds(listed, others, k), token);
    ExecKeepsIssued(Exec(s, Rounds(listed, others, k)), others(k), token);
    assert HoldIssued(u.issued, id, u.table.rows[id]);
  }

  /** The CHECK on the table makes the loop's guard against a missing token unnecessary. */
  lemma ListingHasTokens(s: State, listed: seq<Expired>, limit: nat, k: nat)
    requires Inv(s) && IsListing(s, listed, limit) && k < |listed|
    ensures listed[k].token.Some?
  {
    hide LocksOk, SalesOk, CallsOk, OutboxOk, FailedOk, KeysOk, OrdersOk;
    assert IsExpired(s.table.rows, listed[k].id, s.now) && IsEntry(s.table.rows, listed[k]);
    assert HoldIssued(s.issued, listed[k].id, s.table.rows[listed[k].id]);
  }

  /**
   The loop, with the other actors' actions before each release and possibly an infrastructure
   error at one of them. The count returned is the number of its statements that changed the table.
   */
  method SweepExpiredHolds(sys: System, listed: seq<Expired>, limit: nat, others: nat -> seq<Action>, failAt: nat)
    returns (released: nat)
    requires Inv(sys.s) && IsListing(sys.s, listed, limit)
    modifies sys
    ensures
      var n := if failAt < |listed| then failAt else |listed|;
      && sys.s == Exec(old(sys.s), Rounds(listed, others, n))
      && released == |Transitions(old(sys.s), listed, others, n)| <= limit
    ensures Inv(sys.s)
  {
    hide Inv, Step;
    ghost var s0 := sys.s;
    released := 0;
    assert Transitions(s0, listed, others, 0) == {};
    hide Transitions;
    for i := 0 to |listed|
      invariant i <= failAt
      invariant sys.s == Exec(s0, Rounds(listed, others, i))
      invariant released == |Transitions(s0, listed, others, i)| <= i
    {
      if i == failAt {
        ExecKeeps(s0, Rounds(listed, others, i));
        return;
      }
      sys.s := Exec(sys.s, others(i));
      RoundExec(s0, listed, others, i + 1);
      NextTransition(s0, listed, others, i);
      var row := listed[i];
      if row.token.Some? {
        var ok := row.id !in sys.s.locks && Carries(sys.s.table, row.tenant, row.id, row.token.value);
        sys.s := Step(sys.s, ReleaseUnit(row.tenant, row.id, row.token.value));
        if ok {
          released := released + 1;
        }
      } else {
        ListingHasTokens(s0, listed, limit, i);
      }
    }
    ExecKeeps(s0, Rounds(listed, others, |listed|));
  }

  // ---- a sweep nobody interferes with ----

  /** Nobody else acts. */
  function Quiet(k: nat): seq<Action> {
    []
  }

  /** After n rounds the first n listed units are available and every other row is as it was. */
  ghost predicate Swept(s: State, listed: seq<Expired>, t: State, n: nat)
    requires n <= |listed|
  {
    && t.locks == s.locks && t.table.rows.Keys == s.table.rows.Keys
    && (forall i | 0 <= i < n :: listed[i].id in t.table.rows && t.table.rows[listed[i].id].status == Available)
    && (forall id | id in s.table.rows && !IsListed(listed[..n], id) :: t.table.rows[id] == s.table.rows[id])
  }

  lemma ListedMore(listed: seq<Expired>, n: nat, id: Id)
    requires n < |listed|
    ensures IsListed(listed[..n + 1], id) <==> IsListed(listed[..n], id) || listed[n].id == id
  {
    assert listed[..n + 1] == listed[..n] + [listed[n]];
    var more := listed[..n + 1];
    assert more[n] == listed[n] && forall i | 0 <= i < n :: more[i] == listed[..n][i];
  }

  lemma ReleaseEffect(t: State, x: Expired)
    requires x.token.Some? && x.id !in t.locks && Carries(t.table, x.tenant, x.id, x.token.value)
    ensures
      var u := Step(t, SweepAction(x));
      u.locks == t.locks && u.table.rows == t.table.rows[x.id := Cleared(t.table.rows[x.id], Available)]
  {
    assert Step(t, SweepAction(x)) == DoRelease(t, x.tenant, x.id, x.token.value);
  }

  lemma NextIsStillHeld(s: State, listed: seq<Expired>, t: State, n: nat)
    requires n < |listed| && Swept(s, listed, t, n)
    requires Earliest(s.table.rows, s.now, listed) && listed[n].token.Some?
    ensures Carries(t.table, listed[n].tenant, listed[n].id, listed[n].token.value)
  {
    var x := listed[n];
    assert IsExpired(s.table.rows, x.id, s.now) && IsEntry(s.table.rows, x);
    assert !IsListed(listed[..n], x.id);
  }

  lemma SweepsOneMore(s: State, listed: seq<Expired>, t: State, n: nat)
    requires n < |listed| && Swept(s, listed, t, n) && listed[n].token.Some? && listed[n].id !in s.locks
    requires Carries(t.table, listed[n].tenant, listed[n].id, listed[n].token.value)
    ensures Swept(s, listed, Step(t, SweepAction(listed[n])), n + 1)
  {
    hide Step, IsListed;
    var u := Step(t, SweepAction(listed[n]));
    ReleaseEffect(t, listed[n]);
    forall id ensures IsListed(listed[..n + 1], id) <==> IsListed(listed[..n], id) || listed[n].id == id {
      ListedMore(listed, n, id);
    }
  }

  lemma NothingSwept(s: State, listed: seq<Expired>)
    ensures Exec(s, Rounds(listed, Quiet, 0)) == s && Swept(s, listed, s, 0) && Transitions(s, listed, Quiet, 0) == {}
  {
  }

  lemma QuietFinds(s: State, listed: seq<Expired>, k: nat)
    requires k < |listed|
    ensures Found(s, listed, Quiet, k) == Exec(s, Rounds(listed, Quiet, k))
  {
    hide Step, Rounds;
  }

  lemma {:induction false} QuietSweep(s: State, listed: seq<Expired>, n: nat)
    requires n <= |listed| && Earliest(s.table.rows, s.now, listed)
    requires forall i | 0 <= i < |listed| :: listed[i].token.Some? && listed[i].id !in s.locks
    ensures Swept(s, listed, Exec(s, Rounds(listed, Quiet, n)), n)
    ensures |Transitions(s, listed, Quiet, n)| == n
    decreases n
  {
    hide Exec, Rounds, Step, Earliest, Swept, Transitions, Carries, Quiet, Found;
    if n == 0 {
      NothingSwept(s, listed);
    } else {
      QuietSweep(s, listed, n - 1);
      var t := Exec(s, Rounds(listed, Quiet, n - 1));
      QuietFinds(s, listed, n - 1);
      RoundExec(s, listed, Quiet, n);
      NextIsStillHeld(s, listed, t, n - 1);
      SweepsOneMore(s, listed, t, n - 1);
      SweptLocks(s, listed, t, n - 1);
      NextTransition(s, listed, Quiet, n - 1);
    }
  }

  lemma SweptLocks(s: State, listed: seq<Expired>, t: State, n: nat)
    requires n <= |listed| && Swept(s, listed, t, n)
    ensures t.locks == s.locks
  {
  }

  lemma SweptLeavesNone(s: State, listed: seq<Expired>, limit: nat, t: State, id: Id)
    requires IsListing(s, listed, limit) && |listed| < limit && Swept(s, listed, t, |listed|)
    ensures !IsExpired(t.table.rows, id, s.now)
  {
    assert listed[..|listed|] == listed;
    if id in s.table.rows && IsListed(listed, id) {
      var i :| 0 <= i < |listed| && listed[i].id == id;
    }
  }

  /**
   A sweep that nobody interferes with and whose rows nobody has locked frees every row it lists,
   counts them all, and, if it had room to list them all, leaves no expired hold behind.
   */
  lemma QuietSweepFreesAll(s: State, listed: seq<Expired>, limit: nat, id: Id)
    requires Inv(s) && IsListing(s, listed, limit) && s.locks == map[]
    ensures
      var t := Exec(s, Rounds(listed, Quiet, |listed|));
      && |Transitions(s, listed, Quiet, |listed|)| == |listed|
      && (|listed| < limit ==> !IsExpired(t.table.rows, id, s.now))
  {
    hide Step, Exec, Rounds, Transitions, Inv, Earliest, Swept, IsListed, Quiet;
    forall i | 0 <= i < |listed| ensures listed[i].token.Some? && listed[i].id !in s.locks {
      ListingHasTokens(s, listed, limit, i);
    }
    QuietSweep(s, listed, |listed|);
    if |listed| < limit { SweptLeavesNone(s, listed, limit, Exec(s, Rounds(listed, Quiet, |listed|)), id); }
  }
}
