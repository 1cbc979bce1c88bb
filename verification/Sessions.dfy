/**
 Sessions, their store and the cache in front of it, as a step system.

 Every read or write of Redis and of the database and every reading of the clock is one atomic
 step.  Redis may lose any entry at any time and any of its calls may fail.  A token stands for
 its hash: hashing loses nothing.
 */
module Sessions {
  import opened Wrappers
  import opened Calendar
  import opened Errors
  import opened Courts
  import opened Payments

  /** Tokens are random and never issued twice; zero stands for the empty token. */
  type Token = nat
  const NO_TOKEN: Token := 0

  datatype Session = Session(userId: Id, expiresAt: Instant) {
    predicate IsActive(now: Instant) {
      now < expiresAt
    }
  }

  datatype Account = Account(isActive: bool)

  /** A cached lookup, with when Redis drops it, when it was set there, when its lifetime was computed and when the store was read. */
  datatype Entry = Entry(session: Session, user: Account, deadline: Instant, putAt: Instant, computedAt: Instant, readAt: Instant)

  /** A lookup come by from the cache or the store. */
  datatype Found = Found(session: Session, user: Account, readAt: Instant, putAt: Instant, gotAt: Instant)

  datatype Call =
    /** Authenticate: not in the cache, about to ask the store. */
    | Missed(token: Token)
    /** Authenticate: read from the store, about to have its lifetime in the cache computed. */
    | ReadThrough(token: Token, session: Session, user: Account, readAt: Instant)
    /** Authenticate: about to be set in the cache, to live for the given time from then. */
    | Caching(token: Token, session: Session, user: Account, readAt: Instant, life: int, computedAt: Instant)
    /** Authenticate: looked up, about to be checked. */
    | Have(token: Token, found: Found)
    | Answered(token: Token, answer: Result<Found, Error>, at: Instant)
    /** Logout: evicted, about to delete the row. */
    | Evicted(token: Token)
    | LoggedOut(token: Token, failure: Option<Error>)

  datatype State = State(
    clock: Instant,
    /** How long a cached lookup lives, and how long a session does. */
    cacheTtl: int,
    sessionTtl: int,
    sessions: map<Token, Session>,
    users: map<Id, Account>,
    issued: set<Token>,
    cache: map<Token, Entry>,
    calls: seq<Call>)

  datatype Action =
    | Advance(to: Instant)
    | CreateSession(userId: Id, token: Token, asOf: Instant, fate: Fate)
    | CacheGet(token: Token, up: bool)
    | StoreGet(call: nat, readOk: bool)
    | Reckon(call: nat)
    | CacheSet(call: nat, up: bool)
    | Check(call: nat)
    | Evict(token: Token, up: bool)
    | DeleteRow(call: nat, fate: Fate)
    | Lose(token: Token)
    | SetActive(userId: Id, isActive: bool)

  function Start(clock: Instant, cacheTtl: int, sessionTtl: int, users: map<Id, Account>): State {
    State(clock, cacheTtl, sessionTtl, map[], users, {}, map[], [])
  }

  /** The row and its user, as the store's join finds them. */
  predicate InStore(s: State, token: Token) {
    token in s.sessions && s.sessions[token].userId in s.users
  }

  /** Redis still has the entry. */
  predicate InCache(s: State, token: Token) {
    token in s.cache && s.clock < s.cache[token].deadline
  }

  /** How long an entry lives: no longer than the session it is about. */
  function EntryTtl(cacheTtl: int, session: Session, now: Instant): int {
    if session.expiresAt - now < cacheTtl then session.expiresAt - now else cacheTtl
  }

  /** PutSessionUser up to the SET: what has no time left to live is not cached. */
  function ReckonLife(r: Call, cacheTtl: int, now: Instant): Call
    requires r.ReadThrough?
  {
    var life := EntryTtl(cacheTtl, r.session, now);
    if life <= 0 then Have(r.token, Found(r.session, r.user, r.readAt, now, now))
    else Caching(r.token, r.session, r.user, r.readAt, life, now)
  }

  /** Redis counts the lifetime from when it runs the SET. */
  function SetEntry(cache: map<Token, Entry>, r: Call, now: Instant): map<Token, Entry>
    requires r.Caching?
  {
    cache[r.token := Entry(r.session, r.user, now + r.life, now, r.computedAt, r.readAt)]
  }

  /** What the checks after the lookup answer. */
  function Verdict(found: Found, now: Instant): Result<Found, Error> {
    if !found.session.IsActive(now) then Err(SessionInvalid)
    else if !found.user.isActive then Err(SessionInvalid)
    else Ok(found)
  }

  function BeginAuthenticate(s: State, token: Token, up: bool): Call {
    if token == NO_TOKEN then Answered(token, Err(SessionInvalid), s.clock)
    else if up && InCache(s, token) then
      var e := s.cache[token];
      Have(token, Found(e.session, e.user, e.readAt, e.putAt, s.clock))
    else Missed(token)
  }

  function ReadStore(s: State, token: Token, readOk: bool): Call {
    if !readOk then Answered(token, Err(StorageFailed), s.clock)
    else if !InStore(s, token) then Answered(token, Err(SessionInvalid), s.clock)
    else ReadThrough(token, s.sessions[token], s.users[s.sessions[token].userId], s.clock)
  }

  function Step(s: State, a: Action): State {
    match a
    case Advance(to) => if to >= s.clock then s.(clock := to) else s
    case CreateSession(userId, token, asOf, fate) =>
      if token == NO_TOKEN || token in s.issued || userId !in s.users || asOf > s.clock || fate.NotApplied? then s
      else s.(sessions := s.sessions[token := Session(userId, asOf + s.sessionTtl)], issued := s.issued + {token})
    case CacheGet(token, up) => s.(calls := s.calls + [BeginAuthenticate(s, token, up)])
    case StoreGet(c, readOk) =>
      if c < |s.calls| && s.calls[c].Missed? then
        s.(calls := s.calls[c := ReadStore(s, s.calls[c].token, readOk)])
      else s
    case Reckon(c) =>
      if c < |s.calls| && s.calls[c].ReadThrough? then
        s.(calls := s.calls[c := ReckonLife(s.calls[c], s.cacheTtl, s.clock)])
      else s
    case CacheSet(c, up) =>
      if c < |s.calls| && s.calls[c].Caching? then
        var r := s.calls[c];
        s.(cache := if up then SetEntry(s.cache, r, s.clock) else s.cache,
           calls := s.calls[c := Have(r.token, Found(r.session, r.user, r.readAt, s.clock, s.clock))])
      else s
    case Check(c) =>
      if c < |s.calls| && s.calls[c].Have? then
        s.(calls := s.calls[c := Answered(s.calls[c].token, Verdict(s.calls[c].found, s.clock), s.clock)])
      else s
    case Evict(token, up) =>
      if token == NO_TOKEN then s.(calls := s.calls + [LoggedOut(token, None)])
      else s.(cache := if up then s.cache - {token} else s.cache, calls := s.calls + [Evicted(token)])
    case DeleteRow(c, fate) =>
      if c < |s.calls| && s.calls[c].Evicted? then
        s.(sessions := if fate.NotApplied? then s.sessions else s.sessions - {s.calls[c].token},
           calls := s.calls[c := LoggedOut(s.calls[c].token, if fate.Applied? then None else Some(StorageFailed))])
      else s
    case Lose(token) => s.(cache := s.cache - {token})
    case SetActive(userId, isActive) =>
      if userId in s.users then s.(users := s.users[userId := Account(isActive)]) else s
  }

  function Run(s: State, acts: seq<Action>): State {
    if acts == [] then s else Step(Run(s, acts[..|acts| - 1]), acts[|acts| - 1])
  }

  lemma RunThen(s: State, acts: seq<Action>, a: Action)
    ensures Run(s, acts + [a]) == Step(Run(s, acts), a)
  {
  }

  lemma RunOne(s: State, a: Action)
    ensures Run(s, [a]) == Step(s, a)
  {
  }

  lemma {:induction false} RunConcat(s: State, first: seq<Action>, second: seq<Action>)
    ensures Run(s, first + second) == Run(Run(s, first), second)
  {
    if second == [] {
      assert first + second == first;
    } else {
      var init := second[..|second| - 1];
      RunConcat(s, first, init);
      assert (first + second)[..|first + second| - 1] == first + init;
    }
  }

  lemma RunTwo(s: State, a: Action, b: Action)
    ensures Run(s, [a, b]) == Step(Step(s, a), b)
  {
    RunOne(s, a);
    RunThen(s, [a], b);
    assert [a, b] == [a] + [b];
  }

  lemma RunThree(s: State, a: Action, b: Action, d: Action)
    ensures Run(s, [a, b, d]) == Step(Step(Step(s, a), b), d)
  {
    assert [a, b, d] == [a, b] + [d];
    RunThen(s, [a, b], d);
    RunTwo(s, a, b);
  }

  /** The step moves this request on. */
  predicate Moves(a: Action, c: nat) {
    (a.StoreGet? || a.Reckon? || a.CacheSet? || a.Check? || a.DeleteRow?) && a.call == c
  }

  /** Steps of everybody but the request. */
  predicate Others(acts: seq<Action>, c: nat) {
    forall k :: 0 <= k < |acts| ==> !Moves(acts[k], c)
  }

  lemma OthersLeaveCallAlone(s: State, a: Action, c: nat)
    requires c < |s.calls| && !Moves(a, c)
    ensures c < |Step(s, a).calls| && Step(s, a).calls[c] == s.calls[c]
  {
  }

  lemma {:induction false} OthersRun(s: State, acts: seq<Action>, c: nat)
    requires c < |s.calls| && Others(acts, c)
    ensures c < |Run(s, acts).calls| && Run(s, acts).calls[c] == s.calls[c]
  {
    if acts != [] {
      OthersRun(s, acts[..|acts| - 1], c);
      OthersLeaveCallAlone(Run(s, acts[..|acts| - 1]), acts[|acts| - 1], c);
    }
  }

  lemma ClockForward(s: State, a: Action)
    ensures s.clock <= Step(s, a).clock && Step(s, a).cacheTtl == s.cacheTtl && Step(s, a).sessionTtl == s.sessionTtl
  {
  }

  lemma {:induction false} RunForward(s: State, acts: seq<Action>)
    ensures s.clock <= Run(s, acts).clock && Run(s, acts).cacheTtl == s.cacheTtl && Run(s, acts).sessionTtl == s.sessionTtl
  {
    if acts != [] {
      RunForward(s, acts[..|acts| - 1]);
      ClockForward(Run(s, acts[..|acts| - 1]), acts[|acts| - 1]);
    }
  }
}
