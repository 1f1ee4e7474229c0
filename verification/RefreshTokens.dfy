/**
 Refresh-token rotation. A refresh looks its token up, revokes it by a conditional UPDATE and only
 then issues the next one; refreshes, logouts and mass revocations of any number of clients
 interleave between these statements, and a call may die after any of them.
 */
module RefreshTokens {
  import opened Types

  /**
   A row of refresh_tokens. Raw tokens are random and their hashes do not collide, so a token is
   its position in the table. The last three fields are not columns: they record for which login a
   token was issued, and in exchange for which token.
   */
  datatype Token = Token(
    user: Id, expiresAt: Time, revoked: bool,
    login: nat, generation: nat, parent: Option<nat>)

  // ---- statements ----

  /** `UPDATE ... SET revoked_at = now() WHERE id = $1 AND revoked_at IS NULL`. */
  function Revoked(tokens: seq<Token>, t: nat): seq<Token> {
    if t < |tokens| then tokens[t := tokens[t].(revoked := true)] else tokens
  }

  /** The token t is revoked and otherwise as it was, and every other row is untouched. */
  ghost predicate RevokesOnly(before: seq<Token>, after: seq<Token>, t: nat) {
    && |after| == |before|
    && forall i | 0 <= i < |before| :: after[i] == if i == t then before[i].(revoked := true) else before[i]
  }

  predicate Live(tokens: seq<Token>, t: nat) {
    t < |tokens| && !tokens[t].revoked
  }

  function RevokedFor(tokens: seq<Token>, user: Id): (r: seq<Token>)
    ensures |r| == |tokens|
    ensures forall i | 0 <= i < |tokens| ::
      r[i] == if tokens[i].user == user then tokens[i].(revoked := true) else tokens[i]
  {
    if tokens == [] then []
    else
      var last := tokens[|tokens| - 1];
      RevokedFor(tokens[..|tokens| - 1], user) + [if last.user == user then last.(revoked := true) else last]
  }

  function Root(user: Id, expiresAt: Time, login: nat): Token {
    Token(user, expiresAt, false, login, 0, None)
  }

  function Successor(tokens: seq<Token>, t: nat, expiresAt: Time): Token
    requires t < |tokens|
  {
    Token(tokens[t].user, expiresAt, false, tokens[t].login, tokens[t].generation + 1, Some(t))
  }

  // ---- the code, one call at a time ----

  datatype Outcome =
    | Issued(token: nat) | InvalidCredentials | AlreadyRevoked | Expired | AccountInactive
    | LookupFailed | UserFailed | RevokeFailed | StoreFailed

  /** What looking up the token's user answers: an active account, another one, or an error. */
  datatype UserReply = Active | Inactive | NoUser

  /** The token exists, is not revoked and has not expired. */
  predicate Usable(tokens: seq<Token>, t: nat, now: Time) {
    Live(tokens, t) && tokens[t].expiresAt >= now
  }

  class AuthService {
    var tokens: seq<Token>
    var logins: nat

    constructor ()
      ensures tokens == [] && logins == 0
    {
      tokens, logins := [], 0;
    }

    /** After the credentials are accepted; None is the error of an insert that fails. */
    method Login(user: Id, now: Time, ttl: nat, insertFails: bool) returns (t: Option<nat>)
      modifies this
      ensures t.None? <==> insertFails
      ensures insertFails ==> tokens == old(tokens) && logins == old(logins)
      ensures !insertFails ==>
        && tokens == old(tokens) + [Root(user, now + ttl, old(logins))] && logins == old(logins) + 1
        && t.value == |old(tokens)| && Live(tokens, t.value)
        && tokens[t.value].user == user && tokens[t.value].expiresAt == now + ttl
    {
      if insertFails { return None; }
      t := Some(|tokens|);
      tokens, logins := tokens + [Token(user, now + ttl, false, logins, 0, None)], logins + 1;
    }

    method Revoke(t: nat) returns (ok: bool)
      modifies this`tokens
      ensures ok <==> Live(old(tokens), t)
      ensures tokens == Revoked(old(tokens), t)
      ensures RevokesOnly(old(tokens), tokens, t)
    {
      ok := t < |tokens| && !tokens[t].revoked;
      if ok {
        tokens := tokens[t := tokens[t].(revoked := true)];
      } else if t < |tokens| {
        assert tokens[t].(revoked := true) == tokens[t];
      }
    }

    /** The presented token is used up before its successor exists; a failed insert leaves it used up. */
    method RefreshAccessToken(t: nat, now: Time, ttl: nat, lookupFails: bool, user: UserReply, revokeFails: bool, insertFails: bool)
      returns (outcome: Outcome)
      modifies this`tokens
      ensures outcome.LookupFailed? <==> lookupFails
      ensures outcome.InvalidCredentials? <==> !lookupFails && t >= |old(tokens)|
      ensures outcome.AlreadyRevoked? <==> !lookupFails && t < |old(tokens)| && old(tokens)[t].revoked
      ensures outcome.Expired? <==> !lookupFails && Live(old(tokens), t) && old(tokens)[t].expiresAt < now
      ensures outcome.UserFailed? <==> !lookupFails && Usable(old(tokens), t, now) && user == NoUser
      ensures outcome.AccountInactive? <==> !lookupFails && Usable(old(tokens), t, now) && user == Inactive
      ensures outcome.RevokeFailed? <==> !lookupFails && Usable(old(tokens), t, now) && user == Active && revokeFails
      ensures outcome.StoreFailed? <==>
        !lookupFails && Usable(old(tokens), t, now) && user == Active && !revokeFails && insertFails
      ensures outcome.Issued? <==>
        !lookupFails && Usable(old(tokens), t, now) && user == Active && !revokeFails && !insertFails
      ensures outcome.Issued? ==>
        && outcome.token == |old(tokens)|
        && tokens == Revoked(old(tokens), t) + [Successor(old(tokens), t, now + ttl)]
        && Live(tokens, outcome.token) && !Live(tokens, t)
        && tokens[outcome.token].user == old(tokens)[t].user && tokens[outcome.token].expiresAt == now + ttl
      ensures outcome.Issued? ==> RevokesOnly(old(tokens), tokens[..|old(tokens)|], t)
      ensures outcome.StoreFailed? ==> tokens == Revoked(old(tokens), t) && RevokesOnly(old(tokens), tokens, t)
      ensures !outcome.Issued? && !outcome.StoreFailed? ==> tokens == old(tokens)
    {
      if lookupFails { return LookupFailed; }
      if t >= |tokens| { return InvalidCredentials; }
      var stored := tokens[t];
      if stored.revoked { return AlreadyRevoked; }
      if stored.expiresAt < now { return Expired; }
      if user == NoUser { return UserFailed; }
      if user != Active { return AccountInactive; }
      if revokeFails { return RevokeFailed; }
      var ok := Revoke(t);
      if insertFails { return StoreFailed; }
      outcome := Issued(|tokens|);
      tokens := tokens + [Token(stored.user, now + ttl, false, stored.login, stored.generation + 1, Some(t))];
    }

    /**
     Idempotent: on success the token, if there is one, is revoked, and no other row has changed. A
     token that is gone or already revoked is a success without an UPDATE that could fail.
     */
    method Logout(t: nat, lookupFails: bool, revokeFails: bool) returns (ok: bool)
      modifies this`tokens
      ensures ok <==> !lookupFails && (revokeFails ==> !Live(old(tokens), t))
      ensures ok ==> tokens == Revoked(old(tokens), t) && !Live(tokens, t) && RevokesOnly(old(tokens), tokens, t)
      ensures !ok ==> tokens == old(tokens)
    {
      if lookupFails { return false; }
      if t >= |tokens| { return true; }
      if tokens[t].revoked {
        assert tokens[t].(revoked := true) == tokens[t];
        return true;
      }
      if revokeFails { return false; }
      ok := Revoke(t);
    }
  }

  // ---- interleaved calls ----

  /** Where a call stands: its lookup accepted the token, or its revocation took effect. */
  datatype Call = Found(token: nat) | LeavingWith(token: nat) | Issuing(token: nat)

  datatype State = State(tokens: seq<Token>, logins: nat, calls: map<nat, Call>, nextCall: nat)

  const START := State([], 0, map[], 0)

  datatype Action =
    | Login(user: Id, expiresAt: Time)
    | RefreshLookup(token: nat, now: Time, active: bool)
    | RefreshRevoke(call: nat)
    | RefreshIssue(call: nat, expiresAt: Time)
    | LogoutLookup(token: nat)
    | LogoutRevoke(call: nat)
    | RevokeAll(user: Id)
    | Die(call: nat)

  function Step(s: State, a: Action): State {
    match a
    case Login(user, expiresAt) =>
      s.(tokens := s.tokens + [Root(user, expiresAt, s.logins)], logins := s.logins + 1)
    case RefreshLookup(t, now, active) =>
      if Live(s.tokens, t) && s.tokens[t].expiresAt >= now && active then Began(s, Found(t)) else s
    case RefreshRevoke(c) =>
      if c in s.calls && s.calls[c].Found? then
        if Live(s.tokens, s.calls[c].token) then
          s.(tokens := Revoked(s.tokens, s.calls[c].token), calls := s.calls[c := Issuing(s.calls[c].token)])
        else s.(calls := s.calls - {c})
      else s
    case RefreshIssue(c, expiresAt) =>
      if c in s.calls && s.calls[c].Issuing? && s.calls[c].token < |s.tokens| then
        s.(tokens := s.tokens + [Successor(s.tokens, s.calls[c].token, expiresAt)], calls := s.calls - {c})
      else s
    case LogoutLookup(t) => if Live(s.tokens, t) then Began(s, LeavingWith(t)) else s
    case LogoutRevoke(c) =>
      if c in s.calls && s.calls[c].LeavingWith? then
        s.(tokens := Revoked(s.tokens, s.calls[c].token), calls := s.calls - {c})
      else s
    case RevokeAll(user) => s.(tokens := RevokedFor(s.tokens, user))
    case Die(c) => s.(calls := s.calls - {c})
  }

  function Began(s: State, call: Call): State {
    s.(calls := s.calls[s.nextCall := call], nextCall := s.nextCall + 1)
  }

  function Exec(s: State, run: seq<Action>): State
    decreases run
  {
    if run == [] then s else Exec(Step(s, run[0]), run[1..])
  }

  /** Successors follow their revoked parent, no two tokens share a parent and no two roots share a login. */
  ghost predicate LineageOk(tokens: seq<Token>, logins: nat) {
    && (forall i | 0 <= i < |tokens| :: tokens[i].login < logins && FollowsParent(tokens, i))
    && (forall i, j | 0 <= i < j < |tokens| :: tokens[i].parent.Some? ==> tokens[i].parent != tokens[j].parent)
    && (forall i, j | 0 <= i < j < |tokens| ::
          tokens[i].parent.None? && tokens[j].parent.None? ==> tokens[i].login != tokens[j].login)
  }

  ghost predicate FollowsParent(tokens: seq<Token>, i: nat)
    requires i < |tokens|
  {
    match tokens[i].parent
    case None => tokens[i].generation == 0
    case Some(p) =>
      && p < i && tokens[p].revoked && tokens[p].login == tokens[i].login && tokens[p].user == tokens[i].user
      && tokens[i].generation == tokens[p].generation + 1
  }

  ghost predicate Childless(tokens: seq<Token>, t: nat) {
    forall i | 0 <= i < |tokens| :: tokens[i].parent != Some(t)
  }

  /** A call about to issue holds a revoked token nobody else has exchanged or is exchanging. */
  ghost predicate CallsOk(s: State) {
    && (forall c | c in s.calls :: c < s.nextCall && s.calls[c].token < |s.tokens|)
    && (forall c | c in s.calls && s.calls[c].Issuing? ::
          s.tokens[s.calls[c].token].revoked && Childless(s.tokens, s.calls[c].token))
    && (forall c, d | c in s.calls && d in s.calls && c != d && s.calls[c].Issuing? && s.calls[d].Issuing? ::
          s.calls[c].token != s.calls[d].token)
  }

  ghost predicate Inv(s: State) {
    LineageOk(s.tokens, s.logins) && CallsOk(s)
  }

  /** Same rows, possibly with more of them revoked. */
  ghost predicate OnlyRevokes(before: seq<Token>, after: seq<Token>) {
    && |after| == |before|
    && forall i | 0 <= i < |before| :: after[i] == before[i] || after[i] == before[i].(revoked := true)
  }

  lemma RevokingKeeps(before: seq<Token>, after: seq<Token>, logins: nat)
    requires LineageOk(before, logins) && OnlyRevokes(before, after)
    ensures LineageOk(after, logins)
    ensures forall t | Childless(before, t) :: Childless(after, t)
    ensures forall t | Live(before, t) :: Childless(after, t)
  {
    forall i | 0 <= i < |after| ensures FollowsParent(after, i) {
      assert FollowsParent(before, i);
    }
    forall t: nat, i | Live(before, t) && 0 <= i < |after| ensures after[i].parent != Some(t) {
      assert FollowsParent(before, i);
    }
  }

  lemma RevokeKeeps(s: State, a: Action)
    requires Inv(s) && (a.RefreshRevoke? || a.LogoutRevoke? || a.RevokeAll?)
    ensures Inv(Step(s, a))
  {
    hide LineageOk, Childless;
    var t := Step(s, a);
    assert OnlyRevokes(s.tokens, t.tokens);
    RevokingKeeps(s.tokens, t.tokens, s.logins);
  }

  lemma AppendKeeps(tokens: seq<Token>, x: Token, logins: nat, more: nat)
    requires LineageOk(tokens, logins) && logins <= more && x.login < more
    requires FollowsParent(tokens + [x], |tokens|)
    requires x.parent.None? ==> x.login >= logins
    requires x.parent.Some? ==> Childless(tokens, x.parent.value)
    ensures LineageOk(tokens + [x], more)
  {
    var after := tokens + [x];
    forall i | 0 <= i < |after| ensures FollowsParent(after, i) {
      if i < |tokens| { assert FollowsParent(tokens, i); }
    }
  }

  lemma IssueKeeps(s: State, a: Action)
    requires Inv(s) && (a.Login? || a.RefreshIssue?)
    ensures Inv(Step(s, a))
  {
    hide LineageOk;
    match a
    case Login(user, expiresAt) =>
      AppendKeeps(s.tokens, Root(user, expiresAt, s.logins), s.logins, s.logins + 1);
    case RefreshIssue(c, expiresAt) =>
      if c in s.calls && s.calls[c].Issuing? {
        var t := s.calls[c].token;
        LoginBounded(s, t);
        AppendKeeps(s.tokens, Successor(s.tokens, t, expiresAt), s.logins, s.logins);
      }
  }

  lemma LoginBounded(s: State, t: nat)
    requires LineageOk(s.tokens, s.logins) && t < |s.tokens|
    ensures s.tokens[t].login < s.logins
  {
  }

  lemma StepKeeps(s: State, a: Action)
    requires Inv(s)
    ensures Inv(Step(s, a))
  {
    hide LineageOk, Childless, Revoked, RevokedFor;
    if a.RefreshRevoke? || a.LogoutRevoke? || a.RevokeAll? {
      RevokeKeeps(s, a);
    } else if a.Login? || a.RefreshIssue? {
      IssueKeeps(s, a);
    }
  }

  lemma {:induction false} ExecKeeps(s: State, run: seq<Action>)
    requires Inv(s)
    ensures Inv(Exec(s, run))
    decreases run
  {
    hide Inv, Step;
    if run != [] {
      StepKeeps(s, run[0]);
      ExecKeeps(Step(s, run[0]), run[1..]);
    }
  }

  // ---- each login's tokens form a chain ----

  /** The token of an earlier generation that a token descends from; it has been exchanged, so it is revoked. */
  lemma {:induction false} Ancestor(tokens: seq<Token>, logins: nat, j: nat, g: nat) returns (i: nat)
    requires LineageOk(tokens, logins) && j < |tokens| && g <= tokens[j].generation
    ensures i < |tokens| && tokens[i].login == tokens[j].login && tokens[i].generation == g
    ensures g < tokens[j].generation ==> tokens[i].revoked && !Childless(tokens, i)
    decreases j
  {
    assert FollowsParent(tokens, j);
    if g == tokens[j].generation {
      i := j;
    } else {
      var p := tokens[j].parent.value;
      i := Ancestor(tokens, logins, p, g);
      if g == tokens[p].generation {
        SameGeneration(tokens, logins, i, p);
      }
    }
  }

  lemma {:induction false} SameGeneration(tokens: seq<Token>, logins: nat, i: nat, j: nat)
    requires LineageOk(tokens, logins) && i < |tokens| && j < |tokens|
    requires tokens[i].login == tokens[j].login && tokens[i].generation == tokens[j].generation
    ensures i == j
    decreases i
  {
    assert FollowsParent(tokens, i) && FollowsParent(tokens, j);
    if i != j && tokens[i].generation > 0 {
      SameGeneration(tokens, logins, tokens[i].parent.value, tokens[j].parent.value);
    }
  }

  /**
   Rotation is linear. In every reachable state each token has at most one successor, the tokens
   of a login are told apart by their generation, consecutive ones are parent and successor, and
   only the newest can be unrevoked.
   */
  lemma RotationIsLinear(run: seq<Action>, i: nat, j: nat)
    requires i < |Exec(START, run).tokens| && j < |Exec(START, run).tokens| && i != j
    ensures
      var tokens := Exec(START, run).tokens;
      && (tokens[i].parent.Some? ==> tokens[i].parent != tokens[j].parent)
      && (tokens[i].login == tokens[j].login ==>
            && tokens[i].generation != tokens[j].generation
            && (tokens[i].generation < tokens[j].generation ==> tokens[i].revoked)
            && (tokens[i].generation + 1 == tokens[j].generation ==> tokens[j].parent == Some(i)))
  {
    var s := Exec(START, run);
    ExecKeeps(START, run);
    var tokens := s.tokens;
    if tokens[i].login == tokens[j].login {
      if tokens[i].generation == tokens[j].generation {
        SameGeneration(tokens, s.logins, i, j);
      } else if tokens[i].generation < tokens[j].generation {
        var k := Ancestor(tokens, s.logins, j, tokens[i].generation);
        SameGeneration(tokens, s.logins, i, k);
        assert FollowsParent(tokens, j);
        if tokens[i].generation + 1 == tokens[j].generation {
          SameGeneration(tokens, s.logins, i, tokens[j].parent.value);
        }
      }
    }
  }

  /** Counting the token a call is about to issue, a login never has two that work. */
  lemma OneActivePerLogin(run: seq<Action>, c: nat, i: nat)
    requires c in Exec(START, run).calls && Exec(START, run).calls[c].Issuing?
    requires i < |Exec(START, run).tokens|
    ensures
      var s := Exec(START, run);
      var t := s.calls[c].token;
      && t < |s.tokens|
      && (s.tokens[i].login == s.tokens[t].login ==> s.tokens[i].revoked && s.tokens[i].generation <= s.tokens[t].generation)
      && (forall d | d in s.calls && d != c && s.calls[d].Issuing? ::
            s.calls[d].token < |s.tokens| && s.tokens[s.calls[d].token].login != s.tokens[t].login)
  {
    var s := Exec(START, run);
    ExecKeeps(START, run);
    var t := s.calls[c].token;
    if s.tokens[i].login == s.tokens[t].login {
      Newest(s, t, i);
    }
    forall d | d in s.calls && d != c && s.calls[d].Issuing?
      ensures s.tokens[s.calls[d].token].login != s.tokens[t].login
    {
      var u := s.calls[d].token;
      if s.tokens[u].login == s.tokens[t].login {
        Newest(s, t, u);
        Newest(s, u, t);
        SameGeneration(s.tokens, s.logins, t, u);
      }
    }
  }

  /** A revoked token without a successor is the newest of its login, and everything older is revoked. */
  lemma Newest(s: State, t: nat, i: nat)
    requires Inv(s) && t < |s.tokens| && i < |s.tokens| && s.tokens[i].login == s.tokens[t].login
    requires s.tokens[t].revoked && Childless(s.tokens, t)
    ensures s.tokens[i].revoked && s.tokens[i].generation <= s.tokens[t].generation
  {
    hide LineageOk, CallsOk;
    if s.tokens[t].generation < s.tokens[i].generation {
      var k := Ancestor(s.tokens, s.logins, i, s.tokens[t].generation);
      SameGeneration(s.tokens, s.logins, t, k);
    } else if s.tokens[t].generation == s.tokens[i].generation {
      SameGeneration(s.tokens, s.logins, t, i);
    } else {
      var k := Ancestor(s.tokens, s.logins, t, s.tokens[i].generation);
      SameGeneration(s.tokens, s.logins, i, k);
    }
  }

  /** A revoked token that no call is about to exchange. */
  ghost predicate Spent(s: State, t: nat) {
    t < |s.tokens| && s.tokens[t].revoked && forall c | c in s.calls :: s.calls[c] != Issuing(t)
  }

  lemma StepStaysSpent(s: State, a: Action, t: nat)
    requires Spent(s, t)
    ensures Spent(Step(s, a), t) && |s.tokens| <= |Step(s, a).tokens|
    ensures forall i | |s.tokens| <= i < |Step(s, a).tokens| :: Step(s, a).tokens[i].parent != Some(t)
    ensures forall i | 0 <= i < |s.tokens| :: Step(s, a).tokens[i].parent == s.tokens[i].parent
  {
  }

  /**
   A token is exchanged at most once, and never after it was revoked for another reason: once a
   logout, a mass revocation or a lost race has revoked it, no run issues a successor to it.
   */
  lemma {:induction false} SpentStaysSpent(s: State, later: seq<Action>, t: nat)
    requires Spent(s, t)
    ensures Spent(Exec(s, later), t) && |s.tokens| <= |Exec(s, later).tokens|
    ensures forall i | |s.tokens| <= i < |Exec(s, later).tokens| :: Exec(s, later).tokens[i].parent != Some(t)
    ensures forall i | 0 <= i < |s.tokens| :: Exec(s, later).tokens[i].parent == s.tokens[i].parent
    decreases later
  {
    hide Step, Spent;
    if later != [] {
      StepStaysSpent(s, later[0], t);
      SpentStaysSpent(Step(s, later[0]), later[1..], t);
    }
  }

  // ---- a call nobody interferes with is a run ----

  lemma ExecConcat(s: State, a: seq<Action>, b: seq<Action>)
    ensures Exec(s, a + b) == Exec(Exec(s, a), b)
    decreases a
  {
    hide Step;
    if a == [] {
      assert a + b == b;
    } else {
      assert (a + b)[1..] == a[1..] + b;
      ExecConcat(Step(s, a[0]), a[1..], b);
    }
  }

  lemma ExecOne(s: State, a: Action)
    ensures Exec(s, [a]) == Step(s, a)
  {
    hide Step;
    assert [a][1..] == [];
  }

  /** The refresh: look up, revoke, issue. Without the last step it is the call whose insert failed. */
  lemma RefreshIsARun(s: State, t: nat, now: Time, expiresAt: Time)
    requires Usable(s.tokens, t, now)
    ensures
      var c := s.nextCall;
      var spent := Exec(s, [RefreshLookup(t, now, true)] + [RefreshRevoke(c)]);
      && spent.tokens == Revoked(s.tokens, t)
      && Exec(s, [RefreshLookup(t, now, true)] + [RefreshRevoke(c)] + [RefreshIssue(c, expiresAt)]).tokens
         == Revoked(s.tokens, t) + [Successor(s.tokens, t, expiresAt)]
  {
    hide Exec;
    var c := s.nextCall;
    var a, b, d := RefreshLookup(t, now, true), RefreshRevoke(c), RefreshIssue(c, expiresAt);
    ExecConcat(s, [a] + [b], [d]);
    ExecConcat(s, [a], [b]);
    ExecOne(s, a);
    var s1 := Step(s, a);
    assert s1 == Began(s, Found(t));
    ExecOne(s1, b);
    var s2 := Step(s1, b);
    assert s2.tokens == Revoked(s.tokens, t) && s2.calls[c] == Issuing(t);
    ExecOne(s2, d);
  }

  /** A logout: look up, revoke. */
  lemma LogoutIsARun(s: State, t: nat)
    requires Inv(s)
    ensures Exec(s, [LogoutLookup(t)] + [LogoutRevoke(s.nextCall)]).tokens == Revoked(s.tokens, t)
  {
    hide Exec;
    ExecConcat(s, [LogoutLookup(t)], [LogoutRevoke(s.nextCall)]);
    ExecOne(s, LogoutLookup(t));
    ExecOne(Step(s, LogoutLookup(t)), LogoutRevoke(s.nextCall));
    if t < |s.tokens| && s.tokens[t].revoked {
      assert s.tokens[t].(revoked := true) == s.tokens[t];
    }
  }
}
