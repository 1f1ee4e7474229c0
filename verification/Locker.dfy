/** The single-node Redis lock: SET NX with an expiry, and a check-and-delete release. */
module Locker {
  import opened Types

  /** The value and the deadline of a lock key; a zero ttl means no deadline. */
  datatype Entry = Entry(token: Id, deadline: Option<Time>)

  predicate Alive(e: Entry, now: Time) {
    e.deadline.None? || now < e.deadline.value
  }

  predicate Taken(keys: map<string, Entry>, key: string, now: Time) {
    key in keys && Alive(keys[key], now)
  }

  function NewEntry(token: Id, ttl: nat, now: Time): Entry {
    Entry(token, if ttl == 0 then None else Some(now + ttl))
  }

  /** `SET key token NX PX ttl`. */
  function Acquired(keys: map<string, Entry>, key: string, token: Id, ttl: nat, now: Time): map<string, Entry> {
    if Taken(keys, key, now) then keys else keys[key := NewEntry(token, ttl, now)]
  }

  predicate Owns(keys: map<string, Entry>, key: string, token: Id, now: Time) {
    Taken(keys, key, now) && keys[key].token == token
  }

  /** The unlock script. */
  function Unlocked(keys: map<string, Entry>, key: string, token: Id, now: Time): map<string, Entry> {
    if Owns(keys, key, token, now) then keys - {key} else keys
  }

  /** Whether the answer of Redis arrives; one that does not may have been given to a command that took effect. */
  datatype Reply = Heard | Unheard(applied: bool)

  predicate Applied(reply: Reply) {
    reply.Heard? || reply.applied
  }

  class Locker {
    var keys: map<string, Entry>

    constructor ()
      ensures keys == map[]
    {
      keys := map[];
    }

    /** None is an error. */
    method Acquire(key: string, ttl: nat, token: Id, now: Time, reply: Reply) returns (ok: Option<bool>)
      modifies this
      ensures ok == if reply.Heard? then Some(!Taken(old(keys), key, now)) else None
      ensures keys == if Applied(reply) then Acquired(old(keys), key, token, ttl, now) else old(keys)
      ensures ok.Some? ==>
        (ok.value <==> key !in old(keys) || (old(keys)[key].deadline.Some? && old(keys)[key].deadline.value <= now))
      ensures ok == Some(true) ==>
        keys == old(keys)[key := Entry(token, if ttl == 0 then None else Some(now + ttl))]
    {
      var free := !(key in keys && Alive(keys[key], now));
      if free && Applied(reply) {
        keys := keys[key := Entry(token, if ttl == 0 then None else Some(now + ttl))];
      }
      ok := if reply.Heard? then Some(free) else None;
    }

    method Release(key: string, token: Id, now: Time, reply: Reply) returns (ok: Option<bool>)
      modifies this
      ensures ok == if reply.Heard? then Some(Owns(old(keys), key, token, now)) else None
      ensures keys == if Applied(reply) then Unlocked(old(keys), key, token, now) else old(keys)
      ensures ok == Some(true) ==> key in old(keys) && old(keys)[key].token == token && keys == old(keys) - {key}
      ensures ok == Some(false) ==> keys == old(keys)
    {
      var mine := key in keys && Alive(keys[key], now) && keys[key].token == token;
      if mine && Applied(reply) {
        keys := keys - {key};
      }
      ok := if reply.Heard? then Some(mine) else None;
    }
  }

  // ---- runs of any number of clients ----

  datatype Command =
    | Acquire(after: nat, key: string, token: Id, ttl: nat)
    | Release(after: nat, key: string, token: Id)

  /** A grant, when it was made and for how long. */
  datatype Grant = Grant(key: string, at: Time, ttl: nat)

  /** The store, every grant made so far by its token, and the tokens given back. */
  datatype World = World(now: Time, keys: map<string, Entry>, grants: map<Id, Grant>, returned: set<Id>)

  const EMPTY := World(0, map[], map[], {})

  /** Tokens are drawn at random: a token already granted is never drawn again. */
  function Apply(w: World, c: Command): World {
    var now := w.now + c.after;
    match c
    case Acquire(_, key, token, ttl) =>
      if token in w.grants || Taken(w.keys, key, now) then w.(now := now)
      else
        w.(now := now, keys := Acquired(w.keys, key, token, ttl, now),
           grants := w.grants[token := Grant(key, now, ttl)])
    case Release(_, key, token) =>
      w.(now := now, keys := Unlocked(w.keys, key, token, now),
         returned := if Owns(w.keys, key, token, now) then w.returned + {token} else w.returned)
  }

  function Exec(w: World, commands: seq<Command>): World
    decreases commands
  {
    if commands == [] then w else Exec(Apply(w, commands[0]), commands[1..])
  }

  /** A grant lasts for its ttl; one of zero does not end by itself. */
  predicate Lasts(g: Grant, now: Time) {
    g.ttl == 0 || now < g.at + g.ttl
  }

  /** The holder of this token has not released it and it has not expired. */
  predicate Holds(w: World, token: Id, key: string) {
    && token in w.grants && w.grants[token].key == key
    && token !in w.returned && Lasts(w.grants[token], w.now)
  }

  /** The entry of the store that a grant stands for. */
  predicate Stands(e: Entry, token: Id, g: Grant) {
    && e.token == token
    && if g.ttl == 0 then e.deadline.None? else e.deadline == Some(g.at + g.ttl)
  }

  /** Whoever holds a key is the one the store names, until when it was granted, and the store names only granted tokens. */
  ghost predicate Inv(w: World) {
    && (forall token | token in w.grants && token !in w.returned && Lasts(w.grants[token], w.now) ::
          w.grants[token].key in w.keys && Stands(w.keys[w.grants[token].key], token, w.grants[token]))
    && (forall key | key in w.keys ::
          && w.keys[key].token in w.grants && w.keys[key].token !in w.returned
          && w.grants[w.keys[key].token].key == key && Stands(w.keys[key], w.keys[key].token, w.grants[w.keys[key].token]))
    && (forall token | token in w.returned :: token in w.grants)
  }

  lemma ApplyKeeps(w: World, c: Command)
    requires Inv(w)
    ensures Inv(Apply(w, c))
  {
    hide Inv, Apply;
    if c.Acquire? {
      AcquireKeeps(w, c);
    } else {
      ReleaseKeeps(w, c);
    }
  }

  lemma AcquireKeeps(w: World, c: Command)
    requires Inv(w) && c.Acquire?
    ensures Inv(Apply(w, c))
  {
  }

  lemma ReleaseKeeps(w: World, c: Command)
    requires Inv(w) && c.Release?
    ensures Inv(Apply(w, c))
  {
  }

  lemma {:induction false} ExecKeeps(w: World, commands: seq<Command>)
    requires Inv(w)
    ensures Inv(Exec(w, commands))
    decreases commands
  {
    if commands != [] {
      ApplyKeeps(w, commands[0]);
      ExecKeeps(Apply(w, commands[0]), commands[1..]);
    }
  }

  /** At most one unexpired holder per key, in every state of every run. */
  lemma MutualExclusion(commands: seq<Command>, key: string, a: Id, b: Id)
    requires
      var w := Exec(EMPTY, commands);
      Holds(w, a, key) && Holds(w, b, key)
    ensures a == b
  {
    hide Exec;
    ExecKeeps(EMPTY, commands);
  }

  /** A release by anyone but the present holder leaves the present holder's lock in place. */
  lemma LateReleaseIsHarmless(commands: seq<Command>, late: nat, releasedKey: string, former: Id, key: string, holder: Id)
    requires
      var w := Exec(EMPTY, commands);
      former != holder && Holds(w.(now := w.now + late), holder, key)
    ensures
      var t := Exec(EMPTY, commands + [Release(late, releasedKey, former)]);
      Holds(t, holder, key) && Owns(t.keys, key, holder, t.now)
  {
    var c := Release(late, releasedKey, former);
    ExecKeeps(EMPTY, commands + [c]);
    ExecConcat(EMPTY, commands, [c]);
    assert [c][1..] == [];
  }

  /** The holder's own release frees the key at once. */
  lemma ReleaseFrees(commands: seq<Command>, after: nat, key: string, holder: Id)
    requires
      var w := Exec(EMPTY, commands);
      Holds(w.(now := w.now + after), holder, key)
    ensures
      var t := Exec(EMPTY, commands + [Release(after, key, holder)]);
      !Taken(t.keys, key, t.now) && !Holds(t, holder, key)
  {
    var c := Release(after, key, holder);
    ExecKeeps(EMPTY, commands);
    ExecConcat(EMPTY, commands, [c]);
    assert [c][1..] == [];
  }

  /** The world at a later time, nothing having been done. */
  function At(w: World, now: Time): World {
    w.(now := now)
  }

  lemma LaterKeeps(w: World, now: Time)
    requires Inv(w) && w.now <= now
    ensures Inv(At(w, now))
  {
  }

  /**
   A lock lapses: what was granted at time g for a positive ttl and not given back is held until
   g + ttl and no longer, and the store agrees at every moment.
   */
  lemma LocksLapse(commands: seq<Command>, after: nat, token: Id)
    requires token in Exec(EMPTY, commands).grants && token !in Exec(EMPTY, commands).returned
    ensures
      var w := Exec(EMPTY, commands);
      var g := w.grants[token];
      && (Holds(At(w, w.now + after), token, g.key) <==> g.ttl == 0 || w.now + after < g.at + g.ttl)
      && (Holds(At(w, w.now + after), token, g.key) <==> Owns(w.keys, g.key, token, w.now + after))
  {
    hide Exec;
    ExecKeeps(EMPTY, commands);
    LaterKeeps(Exec(EMPTY, commands), Exec(EMPTY, commands).now + after);
  }

  ghost predicate NobodyHolds(w: World, key: string) {
    forall token :: !Holds(w, token, key)
  }

  /** The store calls a key taken exactly when somebody holds it. */
  lemma TakenIffHeld(w: World, key: string)
    requires Inv(w)
    ensures Taken(w.keys, key, w.now) <==> !NobodyHolds(w, key)
  {
    if Taken(w.keys, key, w.now) {
      assert Holds(w, w.keys[key].token, key);
    }
  }

  /** An attempt with a new token is granted exactly when nobody holds the key, and then from that moment for its ttl. */
  lemma GrantedIffFree(commands: seq<Command>, after: nat, key: string, token: Id, ttl: nat)
    requires token !in Exec(EMPTY, commands).grants
    ensures
      var w := Exec(EMPTY, commands);
      var t := Exec(EMPTY, commands + [Acquire(after, key, token, ttl)]);
      && (token in t.grants <==> NobodyHolds(At(w, w.now + after), key))
      && (token in t.grants ==> t.grants[token] == Grant(key, w.now + after, ttl) && Holds(t, token, key))
  {
    var c := Acquire(after, key, token, ttl);
    var w := Exec(EMPTY, commands);
    ExecKeeps(EMPTY, commands);
    LaterKeeps(w, w.now + after);
    ExecConcat(EMPTY, commands, [c]);
    assert [c][1..] == [];
    hide Exec, NobodyHolds;
    TakenIffHeld(At(w, w.now + after), key);
    ReturnedWereGranted(w, token);
  }

  lemma ReturnedWereGranted(w: World, token: Id)
    requires Inv(w) && token !in w.grants
    ensures token !in w.returned
  {
  }

  lemma {:induction false} ExecConcat(w: World, a: seq<Command>, b: seq<Command>)
    ensures Exec(w, a + b) == Exec(Exec(w, a), b)
    decreases a
  {
    if a == [] {
      assert a + b == b;
    } else {
      assert (a + b)[1..] == a[1..] + b;
      ExecConcat(Apply(w, a[0]), a[1..], b);
    }
  }

  /** The methods are commands: what they do to the store is what the run does. */
  lemma MethodsAreCommands(w: World, after: nat, key: string, token: Id, ttl: nat)
    ensures
      var now := w.now + after;
      && Apply(w, Release(after, key, token)).keys == Unlocked(w.keys, key, token, now)
      && (token !in w.grants ==>
            && Apply(w, Acquire(after, key, token, ttl)).keys == Acquired(w.keys, key, token, ttl, now)
            && (token in Apply(w, Acquire(after, key, token, ttl)).grants <==> !Taken(w.keys, key, now)))
  {
  }
}
