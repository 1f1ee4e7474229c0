/**
 The fixed-window rate limiter: INCR on a key, EXPIRE on the first increment of a window. The two
 are separate Redis commands, so the EXPIRE may come late, or never, and other increments may
 come in between.
 */
module RateLimiter {
  import opened Types

  type Positive = n: nat | n > 0 witness 1

  /** A live key: its counter, and its deadline once EXPIRE has run. */
  datatype Key = Key(count: Positive, deadline: Option<Time>)

  /** Redis has dropped the key by now. */
  predicate Lapsed(k: Key, now: Time) {
    k.deadline.Some? && k.deadline.value <= now
  }

  /** INCR: a missing or lapsed key starts again at one. */
  function Incremented(k: Option<Key>, now: Time): Key {
    if k.None? || Lapsed(k.value, now) then Key(1, None) else Key(k.value.count + 1, k.value.deadline)
  }

  /** EXPIRE sets, or resets, the deadline of a live key. */
  function WithDeadline(k: Option<Key>, now: Time, window: int): Option<Key> {
    if k.Some? && !Lapsed(k.value, now) then Some(k.value.(deadline := Some(now + window))) else k
  }

  // ---- the code ----

  class Limiter {
    var keys: map<string, Key>

    constructor ()
      ensures keys == map[]
    {
      keys := map[];
    }

    function At(key: string): Option<Key>
      reads this
    {
      if key in keys then Some(keys[key]) else None
    }

    /**
     One call, its INCR at `now` and its EXPIRE, if it makes one, `delay` later. None is an error;
     an EXPIRE that fails leaves a key without a deadline behind.
     */
    method Allow(key: string, limit: int, window: int, now: Time, delay: nat, incrFails: bool, expireFails: bool)
      returns (allowed: Option<bool>)
      modifies this
      ensures incrFails ==> allowed == None && keys == old(keys)
      ensures !incrFails ==>
        var k := Incremented(old(At(key)), now);
        && allowed == (if k.count == 1 && expireFails then None else Some(k.count <= limit))
        && At(key) == if k.count == 1 && !expireFails then WithDeadline(Some(k), now + delay, window) else Some(k)
      ensures forall other | other != key :: At(other) == old(At(other))
    {
      if incrFails { return None; }
      var live := Incremented(if key in keys then Some(keys[key]) else None, now);
      keys := keys[key := live];
      if live.count == 1 {
        if expireFails { return None; }
        keys := keys[key := live.(deadline := Some(now + delay + window))];
      }
      allowed := Some(live.count <= limit);
    }
  }

  // ---- runs on one key ----

  /** What reaches Redis, each `after` so much time since the command before. */
  datatype Command = Incr(after: nat) | Expire(after: nat)

  /** An answered increment: when, what the counter said, and when its window's first increment was. */
  datatype Hit = Hit(at: Time, count: Positive, since: Time)

  /** `owed` counts the calls that saw the counter at one and have not sent their EXPIRE; they may never do so. */
  datatype Run = Run(now: Time, key: Option<Key>, hits: seq<Hit>, owed: nat)

  const IDLE := Run(0, None, [], 0)

  function Next(hits: seq<Hit>, now: Time, count: Positive): Hit {
    Hit(now, count, if count == 1 || hits == [] then now else hits[|hits| - 1].since)
  }

  function Apply(r: Run, c: Command, window: int): Run {
    var now := r.now + c.after;
    match c
    case Incr(_) =>
      var k := Incremented(r.key, now);
      Run(now, Some(k), r.hits + [Next(r.hits, now, k.count)], if k.count == 1 then r.owed + 1 else r.owed)
    case Expire(_) =>
      if r.owed == 0 then r.(now := now)
      else Run(now, WithDeadline(r.key, now, window), r.hits, r.owed - 1)
  }

  function Exec(r: Run, commands: seq<Command>, window: int): Run
    decreases commands
  {
    if commands == [] then r else Exec(Apply(r, commands[0], window), commands[1..], window)
  }

  /**
   One hit after another: time does not go back, and the counter either goes on in the same window
   or restarts, the latter no sooner than `window` after the old window was opened.
   */
  ghost predicate Follows(p: Hit, h: Hit, window: int) {
    && p.at <= h.at
    && if h.count == 1 then p.since + window <= h.at else h.count == p.count + 1 && h.since == p.since
  }

  ghost predicate HitOk(hits: seq<Hit>, window: int, j: nat)
    requires j < |hits|
  {
    && hits[j].since <= hits[j].at
    && (hits[j].count == 1 <==> j == 0 || hits[j].count != hits[j - 1].count + 1)
    && (hits[j].count == 1 ==> hits[j].since == hits[j].at)
    && (j > 0 ==> Follows(hits[j - 1], hits[j], window))
  }

  ghost predicate LogOk(hits: seq<Hit>, window: int) {
    forall j: nat | j < |hits| :: HitOk(hits, window, j)
  }

  /** The key in the store is the window of the last hit. */
  ghost predicate RunOk(r: Run, window: int) {
    && LogOk(r.hits, window)
    && (r.key.None? <==> r.hits == [])
    && (r.hits != [] ==>
          var last := r.hits[|r.hits| - 1];
          && last.at <= r.now && r.key.value.count == last.count
          && (r.key.value.deadline.Some? ==> last.since + window <= r.key.value.deadline.value))
  }

  lemma ApplyOk(r: Run, c: Command, window: int)
    requires RunOk(r, window)
    ensures RunOk(Apply(r, c, window), window)
  {
    var t := Apply(r, c, window);
    if r.hits != [] {
      assert HitOk(r.hits, window, |r.hits| - 1);
    }
    forall j: nat | j < |t.hits| ensures HitOk(t.hits, window, j) {
      if j < |r.hits| {
        assert HitOk(r.hits, window, j);
      }
    }
  }

  lemma {:induction false} ExecOk(r: Run, commands: seq<Command>, window: int)
    requires RunOk(r, window)
    ensures RunOk(Exec(r, commands, window), window)
    decreases commands
  {
    if commands != [] {
      ApplyOk(r, commands[0], window);
      ExecOk(Apply(r, commands[0], window), commands[1..], window);
    }
  }

  /** How many of the first n hits were allowed and fell into [x, y). */
  function AllowedIn(hits: seq<Hit>, limit: int, x: Time, y: Time, n: nat): nat
    requires n <= |hits|
  {
    if n == 0 then 0
    else
      AllowedIn(hits, limit, x, y, n - 1)
      + if x <= hits[n - 1].at < y && hits[n - 1].count <= limit then 1 else 0
  }

  function Clip(n: int): nat {
    if n < 0 then 0 else n
  }

  function Least(a: int, b: int): int {
    if a < b then a else b
  }

  /** The bound as it stands after n hits, by where the last hit lies and where its window was opened. */
  ghost predicate BoundAt(hits: seq<Hit>, limit: int, window: int, x: Time, n: nat)
    requires 0 < n <= |hits|
  {
    var last := hits[n - 1];
    var allowed := AllowedIn(hits, limit, x, x + window, n);
    if last.at < x then allowed == 0
    else if last.at >= x + window then allowed <= Clip(2 * limit - 1)
    else if last.since < x then allowed <= Clip(Least(last.count, limit) - 1)
    else allowed <= Clip(limit - 1) + Clip(Least(last.count, limit))
  }

  lemma {:induction false} Bounded(hits: seq<Hit>, limit: int, window: int, x: Time, n: nat)
    requires 0 < n <= |hits| && LogOk(hits, window)
    ensures BoundAt(hits, limit, window, x, n)
  {
    assert HitOk(hits, window, n - 1);
    if n == 1 {
      assert AllowedIn(hits, limit, x, x + window, 0) == 0;
    } else {
      Bounded(hits, limit, window, x, n - 1);
      assert HitOk(hits, window, n - 2);
    }
  }

  /**
   Over every sequence of commands on a key, late or missing EXPIREs included: any half-open
   interval as long as the window contains at most 2 * limit - 1 allowed calls.
   */
  lemma RateBound(commands: seq<Command>, limit: int, window: int, x: Time)
    ensures
      var hits := Exec(IDLE, commands, window).hits;
      AllowedIn(hits, limit, x, x + window, |hits|) <= Clip(2 * limit - 1)
  {
    ExecOk(IDLE, commands, window);
    var hits := Exec(IDLE, commands, window).hits;
    if hits != [] {
      Bounded(hits, limit, window, x, |hits|);
    }
  }

  // ---- inside one window ----

  /** How many of the hits from the a-th up to the n-th were allowed. */
  function AllowedFrom(hits: seq<Hit>, limit: int, a: nat, n: nat): nat
    requires a <= n <= |hits|
  {
    if n == a then 0 else AllowedFrom(hits, limit, a, n - 1) + if hits[n - 1].count <= limit then 1 else 0
  }

  /** Between two expiries of the key exactly min(calls, limit) calls are allowed. */
  lemma {:induction false} WindowAllowsLimit(hits: seq<Hit>, limit: int, window: int, n: nat)
    requires LogOk(hits, window) && 0 < n <= |hits|
    ensures
      var calls := hits[n - 1].count;
      && calls <= n && hits[n - calls].count == 1
      && AllowedFrom(hits, limit, n - calls, n) == Clip(Least(calls, limit))
  {
    assert HitOk(hits, window, n - 1);
    if hits[n - 1].count == 1 {
      assert AllowedFrom(hits, limit, n - 1, n - 1) == 0;
    } else {
      WindowAllowsLimit(hits, limit, window, n - 1);
    }
  }

  // ---- the bound is reached ----

  /** n increments at one instant. */
  function Burst(n: nat): seq<Command> {
    seq(n, _ => Incr(0))
  }

  lemma {:induction false} ExecConcat(r: Run, a: seq<Command>, b: seq<Command>, window: int)
    ensures Exec(r, a + b, window) == Exec(Exec(r, a, window), b, window)
    decreases a
  {
    if a == [] {
      assert a + b == b;
    } else {
      assert (a + b)[1..] == a[1..] + b;
      ExecConcat(Apply(r, a[0], window), a[1..], b, window);
    }
  }

  lemma AllowedInAppend(hits: seq<Hit>, h: Hit, limit: int, x: Time, y: Time, n: nat)
    requires n <= |hits|
    ensures AllowedIn(hits + [h], limit, x, y, n) == AllowedIn(hits, limit, x, y, n)
  {
    if n > 0 { AllowedInAppend(hits, h, limit, x, y, n - 1); }
  }

  function Total(r: Run, limit: int, x: Time, y: Time): nat {
    AllowedIn(r.hits, limit, x, y, |r.hits|)
  }

  /** A burst inside a live window that stays within the limit is allowed as a whole. */
  lemma {:induction false} BurstAllowed(r: Run, n: nat, limit: int, window: int, x: Time, y: Time)
    requires r.key.Some? && !Lapsed(r.key.value, r.now) && r.key.value.count + n <= limit && x <= r.now < y
    ensures
      var t := Exec(r, Burst(n), window);
      && t.now == r.now && t.key == Some(Key(r.key.value.count + n, r.key.value.deadline))
      && Total(t, limit, x, y) == Total(r, limit, x, y) + n
    decreases n
  {
    if n > 0 {
      var t := Apply(r, Incr(0), window);
      assert Burst(n)[1..] == Burst(n - 1);
      AllowedInAppend(r.hits, t.hits[|r.hits|], limit, x, y, |r.hits|);
      BurstAllowed(t, n - 1, limit, window, x, y);
    }
  }

  /**
   A key opened early, then used up at the end of its window and again right after, by calls alone:
   2 * limit - 1 of them are allowed in one window's length.
   */
  function Boundary(limit: Positive, window: int): seq<Command>
    requires window >= 2
  {
    Opening(window) + Burst(if limit == 1 then 0 else limit - 2) + ([Incr(1)] + Burst(limit - 1))
  }

  function Opening(window: int): seq<Command>
    requires window >= 2
  {
    [Incr(0)] + ([Expire(0)] + [Incr(window - 1)])
  }

  lemma ExecOne(r: Run, c: Command, window: int)
    ensures Exec(r, [c], window) == Apply(r, c, window)
  {
    assert [c][1..] == [];
  }

  lemma AfterOpening(window: int)
    requires window >= 2
    ensures Exec(IDLE, Opening(window), window)
         == Run(window - 1, Some(Key(2, Some(window))), [Hit(0, 1, 0), Hit(window - 1, 2, 0)], 0)
  {
    var r1 := Apply(IDLE, Incr(0), window);
    var r2 := Apply(r1, Expire(0), window);
    hide Exec;
    ExecConcat(IDLE, [Incr(0)], [Expire(0)] + [Incr(window - 1)], window);
    ExecConcat(r1, [Expire(0)], [Incr(window - 1)], window);
    ExecOne(IDLE, Incr(0), window);
    ExecOne(r1, Expire(0), window);
    ExecOne(r2, Incr(window - 1), window);
  }

  /** The next window opens the moment the old one lapses, and its first call counts. */
  lemma AfterReopening(r: Run, limit: Positive, window: int, x: Time, y: Time)
    requires r.key.Some? && r.key.value.deadline == Some(r.now + 1) && x <= r.now + 1 < y
    ensures
      var t := Exec(r, [Incr(1)], window);
      && t.now == r.now + 1 && t.key == Some(Key(1, None))
      && Total(t, limit, x, y) == Total(r, limit, x, y) + 1
  {
    var t := Apply(r, Incr(1), window);
    hide Exec;
    ExecOne(r, Incr(1), window);
    AllowedInAppend(r.hits, t.hits[|r.hits|], limit, x, y, |r.hits|);
  }

  /** The end of the first window: what the limit still leaves is allowed. */
  lemma AfterFirstWindow(limit: Positive, window: int)
    requires window >= 2
    ensures
      var r := Exec(Exec(IDLE, Opening(window), window), Burst(if limit == 1 then 0 else limit - 2), window);
      && r.now == window - 1 && r.key.Some? && r.key.value.deadline == Some(window)
      && Total(r, limit, window - 1, window - 1 + window) == limit - 1
  {
    hide Exec, Apply;
    AfterOpening(window);
    var r := Exec(IDLE, Opening(window), window);
    var x, y := window - 1, window - 1 + window;
    assert AllowedIn(r.hits, limit, x, y, 0) == 0 && AllowedIn(r.hits, limit, x, y, 1) == 0;
    assert Total(r, limit, x, y) == if limit == 1 then 0 else 1;
    if limit == 1 {
      NoBurst(r, window);
    } else {
      hide Burst;
      BurstAllowed(r, limit - 2, limit, window, x, y);
    }
  }

  lemma NoBurst(r: Run, window: int)
    ensures Exec(r, Burst(0), window) == r
  {
  }

  lemma BoundIsReached(limit: Positive, window: int)
    requires window >= 2
    ensures
      var hits := Exec(IDLE, Boundary(limit, window), window).hits;
      AllowedIn(hits, limit, window - 1, window - 1 + window, |hits|) == 2 * limit - 1
  {
    hide Exec, Apply, Burst, Opening;
    var x, y := window - 1, window - 1 + window;
    var first, second := Burst(if limit == 1 then 0 else limit - 2), Burst(limit - 1);
    ExecConcat(IDLE, Opening(window) + first, [Incr(1)] + second, window);
    ExecConcat(IDLE, Opening(window), first, window);
    AfterFirstWindow(limit, window);
    var r := Exec(Exec(IDLE, Opening(window), window), first, window);
    ExecConcat(r, [Incr(1)], second, window);
    AfterReopening(r, limit, window, x, y);
    BurstAllowed(Exec(r, [Incr(1)], window), limit - 1, limit, window, x, y);
  }

  /** The method is a run: INCR, and EXPIRE by the caller that saw a count of one unless it fails. */
  lemma AllowIsARun(r: Run, after: nat, delay: nat, window: int, expireFails: bool)
    ensures
      var k := Incremented(r.key, r.now + after);
      var expires := k.count == 1 && !expireFails;
      var t := Exec(r, [Incr(after)] + (if expires then [Expire(delay)] else []), window);
      && t.hits == r.hits + [Next(r.hits, r.now + after, k.count)]
      && t.key == if expires then WithDeadline(Some(k), r.now + after + delay, window) else Some(k)
  {
    hide Exec;
    var k := Incremented(r.key, r.now + after);
    ExecOne(r, Incr(after), window);
    if k.count == 1 && !expireFails {
      ExecConcat(r, [Incr(after)], [Expire(delay)], window);
      ExecOne(Apply(r, Incr(after), window), Expire(delay), window);
    } else {
      assert [Incr(after)] + [] == [Incr(after)];
    }
  }
}
