/** When the cache answers exactly as the store would. */
module Transparency {
  import opened Wrappers
  import opened Calendar
  import opened Errors
  import opened Courts
  import opened Payments
  import opened Sessions

  /** The answer with no cache at all: the row as the store holds it now, checked now. */
  function Cacheless(s: State, token: Token): Result<(Session, Account), Error> {
    if token == NO_TOKEN || !InStore(s, token) then Err(SessionInvalid)
    else
      var session := s.sessions[token];
      var user := s.users[session.userId];
      if session.IsActive(s.clock) && user.isActive then Ok((session, user)) else Err(SessionInvalid)
  }

  /** What the caller sees of an answer. */
  function Seen(answer: Result<Found, Error>): Result<(Session, Account), Error> {
    match answer
    case Ok(f) => Ok((f.session, f.user))
    case Err(e) => Err(e)
  }

  /** The store holds exactly this lookup. */
  predicate Current(s: State, token: Token, session: Session, user: Account) {
    InStore(s, token) && s.sessions[token] == session && s.users[session.userId] == user
  }

  /** Every entry Redis still has is what the store holds. */
  ghost predicate Agree(s: State) {
    forall token :: InCache(s, token) ==> Current(s, token, s.cache[token].session, s.cache[token].user)
  }

  /** Only issued tokens have rows, entries or lookups. */
  ghost predicate TokensIssued(s: State) {
    && (forall token :: token in s.sessions ==> token in s.issued)
    && (forall token :: token in s.cache ==> token in s.issued)
    && (forall c :: 0 <= c < |s.calls| && (s.calls[c].ReadThrough? || s.calls[c].Caching?) ==> s.calls[c].token in s.issued)
  }

  lemma StepKeepsTokensIssued(s: State, a: Action)
    requires TokensIssued(s)
    ensures TokensIssued(Step(s, a))
    ensures s.issued <= Step(s, a).issued
  {
  }

  /** The step caches a lookup that is no longer what the store holds. */
  predicate PutsStale(s: State, a: Action) {
    a.CacheSet? && a.up && a.call < |s.calls| && s.calls[a.call].Caching?
    && var r := s.calls[a.call]; r.life > 0 && !Current(s, r.token, r.session, r.user)
  }

  /** The step deletes a row whose entry Redis still has. */
  predicate DeletesUnderEntry(s: State, a: Action) {
    a.DeleteRow? && !a.fate.NotApplied? && a.call < |s.calls| && s.calls[a.call].Evicted? && InCache(s, s.calls[a.call].token)
  }

  /** The step changes an account that an entry Redis still has speaks of. */
  ghost predicate ChangesUnderEntry(s: State, a: Action) {
    a.SetActive? && a.userId in s.users && s.users[a.userId] != Account(a.isActive)
    && exists token :: InCache(s, token) && s.cache[token].session.userId == a.userId
  }

  lemma PutStaleDisagrees(s: State, a: Action)
    requires PutsStale(s, a)
    ensures !Agree(Step(s, a))
  {
    var r, s' := s.calls[a.call], Step(s, a);
    assert InCache(s', r.token);
  }

  lemma DeleteUnderDisagrees(s: State, a: Action)
    requires DeletesUnderEntry(s, a)
    ensures !Agree(Step(s, a))
  {
  }

  lemma ChangeUnderDisagrees(s: State, a: Action)
    requires Agree(s) && ChangesUnderEntry(s, a)
    ensures !Agree(Step(s, a))
  {
  }

  lemma OtherwiseAgrees(s: State, a: Action, token: Token)
    requires TokensIssued(s) && Agree(s) && InCache(Step(s, a), token)
    requires !PutsStale(s, a) && !DeletesUnderEntry(s, a) && !ChangesUnderEntry(s, a)
    ensures Current(Step(s, a), token, Step(s, a).cache[token].session, Step(s, a).cache[token].user)
  {
    var s' := Step(s, a);
    if token in s.cache && s.cache[token] == s'.cache[token] {
      assert InCache(s, token);
      assert Current(s, token, s.cache[token].session, s.cache[token].user);
    }
  }

  /** A step keeps cache and store in agreement exactly when it does none of the three. */
  lemma AgreesExactly(s: State, a: Action)
    requires TokensIssued(s) && Agree(s)
    ensures Agree(Step(s, a)) <==> !PutsStale(s, a) && !DeletesUnderEntry(s, a) && !ChangesUnderEntry(s, a)
  {
    if PutsStale(s, a) {
      PutStaleDisagrees(s, a);
    } else if DeletesUnderEntry(s, a) {
      DeleteUnderDisagrees(s, a);
    } else if ChangesUnderEntry(s, a) {
      ChangeUnderDisagrees(s, a);
    } else {
      forall token | InCache(Step(s, a), token)
        ensures Current(Step(s, a), token, Step(s, a).cache[token].session, Step(s, a).cache[token].user)
      {
        OtherwiseAgrees(s, a, token);
      }
    }
  }

  /** A whole request, or something that happens between requests. */
  datatype Op =
    | Wait(to: Instant)
    | Login(userId: Id, token: Token, asOf: Instant, fate: Fate)
    | Authenticate(token: Token, cacheUp: bool, readOk: bool, putUp: bool)
    | Logout(token: Token, fate: Fate)
    | Forget(token: Token)

  /** The steps of the request; the eviction takes effect. */
  function StepsOf(s: State, op: Op): seq<Action> {
    var c := |s.calls|;
    match op
    case Wait(to) => [Advance(to)]
    case Login(userId, token, asOf, fate) => [CreateSession(userId, token, asOf, fate)]
    case Authenticate(token, cacheUp, readOk, putUp) =>
      [CacheGet(token, cacheUp), StoreGet(c, readOk)] + [Reckon(c), CacheSet(c, putUp), Check(c)]
    case Logout(token, fate) => [Evict(token, true), DeleteRow(c, fate)]
    case Forget(token) => [Lose(token)]
  }

  function After(s: State, op: Op): State {
    Run(s, StepsOf(s, op))
  }

  function RunOps(s: State, ops: seq<Op>): State {
    if ops == [] then s else After(RunOps(s, ops[..|ops| - 1]), ops[|ops| - 1])
  }

  ghost predicate Fine(s: State) {
    TokensIssued(s) && Agree(s)
  }

  lemma FineStep(s: State, a: Action)
    requires Fine(s) && !PutsStale(s, a) && !DeletesUnderEntry(s, a) && !ChangesUnderEntry(s, a)
    ensures Fine(Step(s, a))
  {
    StepKeepsTokensIssued(s, a);
    AgreesExactly(s, a);
  }

  /** The lookup has the store's own answer in hand. */
  predicate HasCurrent(s: State, c: nat, token: Token) {
    c < |s.calls|
    && ((s.calls[c].Have? && s.calls[c].token == token && Current(s, token, s.calls[c].found.session, s.calls[c].found.user))
        || ((s.calls[c].ReadThrough? || s.calls[c].Caching?) && s.calls[c].token == token
            && Current(s, token, s.calls[c].session, s.calls[c].user)))
  }

  /** Nothing but the cache and the calls differs. */
  predicate SameStore(s: State, s': State) {
    s'.clock == s.clock && s'.sessions == s.sessions && s'.users == s.users && s'.issued == s.issued
  }

  /** An authentication has to ask the store. */
  predicate AsksStore(s: State, token: Token, cacheUp: bool) {
    token != NO_TOKEN && !(cacheUp && InCache(s, token))
  }

  /** The lookup, cache first: it is refused, or it has what the store holds. */
  lemma LookupSteps(s: State, token: Token, cacheUp: bool, readOk: bool)
    requires Fine(s)
    ensures var c := |s.calls|;
            var found := Run(s, [CacheGet(token, cacheUp), StoreGet(c, readOk)]);
            && Fine(found) && SameStore(s, found) && |found.calls| == c + 1
            && if token == NO_TOKEN || (AsksStore(s, token, cacheUp) && readOk && !InStore(s, token)) then
                 found.calls[c].Answered? && found.calls[c].answer == Err(SessionInvalid)
               else if AsksStore(s, token, cacheUp) && !readOk then
                 found.calls[c].Answered? && found.calls[c].answer == Err(StorageFailed)
               else HasCurrent(found, c, token)
  {
    var c := |s.calls|;
    var s1 := Step(s, CacheGet(token, cacheUp));
    FineStep(s, CacheGet(token, cacheUp));
    FineStep(s1, StoreGet(c, readOk));
    RunTwo(s, CacheGet(token, cacheUp), StoreGet(c, readOk));
    if !AsksStore(s, token, cacheUp) && token != NO_TOKEN {
      assert Current(s, token, s.cache[token].session, s.cache[token].user);
    }
  }

  /** Caching what was read, if it has time left to live. */
  lemma CacheSteps(s: State, c: nat, token: Token, putUp: bool)
    requires Fine(s) && c < |s.calls| && (s.calls[c].Answered? || HasCurrent(s, c, token)) && !s.calls[c].Caching?
    ensures var put := Run(s, [Reckon(c), CacheSet(c, putUp)]);
            && Fine(put) && SameStore(s, put) && |put.calls| == |s.calls|
            && if s.calls[c].Answered? then put.calls[c] == s.calls[c] else put.calls[c].Have? && HasCurrent(put, c, token)
  {
    var reckoned := Step(s, Reckon(c));
    FineStep(s, Reckon(c));
    FineStep(reckoned, CacheSet(c, putUp));
    RunTwo(s, Reckon(c), CacheSet(c, putUp));
  }

  /** The rest: cache it, then check it. */
  lemma SettleSteps(s: State, c: nat, token: Token, putUp: bool)
    requires Fine(s) && c < |s.calls| && (s.calls[c].Answered? || (HasCurrent(s, c, token) && token != NO_TOKEN))
    requires !s.calls[c].Caching?
    ensures var after := Run(s, [Reckon(c), CacheSet(c, putUp), Check(c)]);
            && Fine(after) && SameStore(s, after) && |after.calls| == |s.calls| && after.calls[c].Answered?
            && (s.calls[c].Answered? ==> after.calls[c] == s.calls[c])
            && (HasCurrent(s, c, token) ==> Seen(after.calls[c].answer) == Cacheless(s, token))
  {
    CacheSteps(s, c, token, putUp);
    var put := Run(s, [Reckon(c), CacheSet(c, putUp)]);
    FineStep(put, Check(c));
    RunThen(s, [Reckon(c), CacheSet(c, putUp)], Check(c));
    assert [Reckon(c), CacheSet(c, putUp), Check(c)] == [Reckon(c), CacheSet(c, putUp)] + [Check(c)];
  }

  /** The steps of one authentication, run without a break. */
  lemma AuthenticateSteps(s: State, token: Token, cacheUp: bool, readOk: bool, putUp: bool)
    requires Fine(s)
    ensures var after := After(s, Authenticate(token, cacheUp, readOk, putUp));
            && Fine(after) && SameStore(s, after) && |after.calls| == |s.calls| + 1
            && after.calls[|s.calls|].Answered?
            && Seen(after.calls[|s.calls|].answer)
               == if AsksStore(s, token, cacheUp) && !readOk then Err(StorageFailed) else Cacheless(s, token)
  {
    var c := |s.calls|;
    LookupSteps(s, token, cacheUp, readOk);
    var found := Run(s, [CacheGet(token, cacheUp), StoreGet(c, readOk)]);
    RunConcat(s, [CacheGet(token, cacheUp), StoreGet(c, readOk)], [Reckon(c), CacheSet(c, putUp), Check(c)]);
    SettleSteps(found, c, token, putUp);
  }

  /** The two writes of a logout, one after the other. */
  lemma EvictsThenDeletes(s: State, token: Token, fate: Fate)
    requires token != NO_TOKEN
    ensures var n, evicted := |s.calls|, s.(cache := s.cache - {token}, calls := s.calls + [Evicted(token)]);
            && Step(s, Evict(token, true)) == evicted
            && Step(evicted, DeleteRow(n, fate))
               == evicted.(sessions := if fate.NotApplied? then s.sessions else s.sessions - {token},
                           calls := s.calls + [LoggedOut(token, if fate.Applied? then None else Some(StorageFailed))])
  {
    var n, calls := |s.calls|, s.calls + [Evicted(token)];
    assert calls[n] == Evicted(token);
    assert forall out :: calls[n := out] == s.calls + [out];
  }

  lemma LogoutSteps(s: State, token: Token, fate: Fate)
    requires Fine(s)
    ensures var after := After(s, Logout(token, fate));
            && Fine(after) && after.issued == s.issued
            && after.sessions == (if fate.NotApplied? || token == NO_TOKEN then s.sessions else s.sessions - {token})
  {
    var c := |s.calls|;
    var s1 := Step(s, Evict(token, true));
    FineStep(s, Evict(token, true));
    assert !InCache(s1, token) || token == NO_TOKEN;
    FineStep(s1, DeleteRow(c, fate));
    RunTwo(s, Evict(token, true), DeleteRow(c, fate));
  }

  lemma OpKeepsFine(s: State, op: Op)
    requires Fine(s)
    ensures Fine(After(s, op)) && s.issued <= After(s, op).issued
    ensures forall token :: token in s.issued && token !in s.sessions ==> token !in After(s, op).sessions
  {
    match op
    case Wait(to) => RunOne(s, Advance(to)); FineStep(s, Advance(to));
    case Login(u, t, o, f) => RunOne(s, CreateSession(u, t, o, f)); FineStep(s, CreateSession(u, t, o, f));
    case Authenticate(t, x, y, z) => AuthenticateSteps(s, t, x, y, z);
    case Logout(t, fate) => LogoutSteps(s, t, fate);
    case Forget(t) => RunOne(s, Lose(t)); FineStep(s, Lose(t));
  }

  lemma {:induction false} OpsKeepFine(s: State, ops: seq<Op>)
    requires Fine(s)
    ensures Fine(RunOps(s, ops)) && s.issued <= RunOps(s, ops).issued
    ensures forall token :: token in s.issued && token !in s.sessions ==> token !in RunOps(s, ops).sessions
  {
    if ops != [] {
      OpsKeepFine(s, ops[..|ops| - 1]);
      OpKeepsFine(RunOps(s, ops[..|ops| - 1]), ops[|ops| - 1]);
    }
  }

  /**
   Over any sequence of logins, authentications, logouts and waits, with Redis losing entries at
   will, an authentication answers exactly as the store alone would have, unless it had to ask the
   store and the store failed.
   */
  lemma CacheIsTransparent(clock: Instant, cacheTtl: int, sessionTtl: int, users: map<Id, Account>, ops: seq<Op>,
                           token: Token, cacheUp: bool, readOk: bool, putUp: bool)
    ensures var s := RunOps(Start(clock, cacheTtl, sessionTtl, users), ops);
            var after := After(s, Authenticate(token, cacheUp, readOk, putUp));
            && |after.calls| == |s.calls| + 1 && after.calls[|s.calls|].Answered?
            && Seen(after.calls[|s.calls|].answer)
               == if AsksStore(s, token, cacheUp) && !readOk then Err(StorageFailed) else Cacheless(s, token)
  {
    OpsKeepFine(Start(clock, cacheTtl, sessionTtl, users), ops);
    AuthenticateSteps(RunOps(Start(clock, cacheTtl, sessionTtl, users), ops), token, cacheUp, readOk, putUp);
  }

  lemma {:induction false} RunOpsConcat(s: State, first: seq<Op>, second: seq<Op>)
    ensures RunOps(s, first + second) == RunOps(RunOps(s, first), second)
  {
    if second == [] {
      assert first + second == first;
    } else {
      var init := second[..|second| - 1];
      RunOpsConcat(s, first, init);
      assert (first + second)[..|first + second| - 1] == first + init;
    }
  }

  /** A token once logged out never authenticates again. */
  lemma LoggedOutForGood(clock: Instant, cacheTtl: int, sessionTtl: int, users: map<Id, Account>, before: seq<Op>, token: Token, fate: Fate,
                         later: seq<Op>, cacheUp: bool, readOk: bool, putUp: bool)
    requires token in RunOps(Start(clock, cacheTtl, sessionTtl, users), before).issued && !fate.NotApplied?
    ensures var s := RunOps(After(RunOps(Start(clock, cacheTtl, sessionTtl, users), before), Logout(token, fate)), later);
            var after := After(s, Authenticate(token, cacheUp, readOk, putUp));
            |after.calls| == |s.calls| + 1 && after.calls[|s.calls|].Answered? && after.calls[|s.calls|].answer.Err?
  {
    var start := Start(clock, cacheTtl, sessionTtl, users);
    var s0 := RunOps(start, before);
    OpsKeepFine(start, before);
    LogoutSteps(s0, token, fate);
    var s1 := After(s0, Logout(token, fate));
    OpsKeepFine(s1, later);
    AuthenticateSteps(RunOps(s1, later), token, cacheUp, readOk, putUp);
    if token == NO_TOKEN {
      assert Cacheless(RunOps(s1, later), token).Err?;
    }
  }

  /** The token is logged out, row and entry, while a lookup of it waits to be cached. */
  lemma LogoutMeanwhile(s: State, c: nat)
    requires c < |s.calls| && s.calls[c].ReadThrough? && s.calls[c].token != NO_TOKEN
    ensures var n := |s.calls|;
            var after := Run(s, [Evict(s.calls[c].token, true), DeleteRow(n, Applied)]);
            && s.calls[c].token !in after.sessions && after.clock == s.clock && after.cacheTtl == s.cacheTtl
            && after.calls == s.calls + [LoggedOut(s.calls[c].token, None)]
  {
    var token, n := s.calls[c].token, |s.calls|;
    RunTwo(s, Evict(token, true), DeleteRow(n, Applied));
    EvictsThenDeletes(s, token, Applied);
  }

  /** The lookup is then cached and the token tried again. */
  lemma TriedAgain(s: State, c: nat, n: nat)
    requires c < n == |s.calls| && s.calls[c].ReadThrough? && s.calls[c].token != NO_TOKEN
    requires s.calls[c].session.IsActive(s.clock) && s.calls[c].user.isActive && s.cacheTtl > 0
    ensures var after := Run(s, [Reckon(c), CacheSet(c, true), CacheGet(s.calls[c].token, true)]);
            && after.sessions == s.sessions && after.clock == s.clock
            && |after.calls| == n + 1 && (forall d :: 0 <= d < n && d != c ==> after.calls[d] == s.calls[d])
            && after.calls[n].Have? && after.calls[n].token == s.calls[c].token
            && Verdict(after.calls[n].found, after.clock).Ok?
  {
    var reckoned := Step(s, Reckon(c));
    assert reckoned.calls[c].Caching?;
    assert InCache(Step(reckoned, CacheSet(c, true)), s.calls[c].token);
    RunThree(s, Reckon(c), CacheSet(c, true), CacheGet(s.calls[c].token, true));
  }

  lemma CheckLetsIn(s: State, c: nat)
    requires c < |s.calls| && s.calls[c].Have? && Verdict(s.calls[c].found, s.clock).Ok?
    ensures var after := Step(s, Check(c));
            && after.sessions == s.sessions && |after.calls| == |s.calls|
            && (forall d :: 0 <= d < |s.calls| && d != c ==> after.calls[d] == s.calls[d])
            && after.calls[c].Answered? && after.calls[c].token == s.calls[c].token && after.calls[c].answer.Ok?
  {
  }

  /** A logout that comes between an authentication's reading of the store and its caching; then the token is tried again. */
  function LogoutOvertaken(token: Token, c: nat, n: nat): seq<Action> {
    ([Evict(token, true), DeleteRow(n, Applied)] + [Reckon(c), CacheSet(c, true), CacheGet(token, true)]) + [Check(n + 1)]
  }

  lemma TriedAfterLogout(s: State, c: nat)
    requires c < |s.calls| && s.calls[c].ReadThrough? && s.calls[c].token != NO_TOKEN
    requires s.calls[c].session.IsActive(s.clock) && s.calls[c].user.isActive && s.cacheTtl > 0
    ensures var token, n := s.calls[c].token, |s.calls|;
            var after := Run(s, [Evict(token, true), DeleteRow(n, Applied)] + [Reckon(c), CacheSet(c, true), CacheGet(token, true)]);
            && token !in after.sessions && |after.calls| == n + 2 && after.calls[n] == LoggedOut(token, None)
            && after.calls[n + 1].Have? && after.calls[n + 1].token == token && Verdict(after.calls[n + 1].found, after.clock).Ok?
  {
    var token, n := s.calls[c].token, |s.calls|;
    var first, second := [Evict(token, true), DeleteRow(n, Applied)], [Reckon(c), CacheSet(c, true), CacheGet(token, true)];
    LogoutMeanwhile(s, c);
    var out := Run(s, first);
    assert out.calls[c] == s.calls[c];
    TriedAgain(out, c, n + 1);
    RunConcat(s, first, second);
  }

  /**
   With requests interleaved it is otherwise: from any state in which an authentication has read
   an active session and not yet cached it, a run logs the token out, row and entry, and then
   authenticates it.
   */
  lemma LogoutCanBeOvertaken(s: State, c: nat)
    requires c < |s.calls| && s.calls[c].ReadThrough? && s.calls[c].token != NO_TOKEN
    requires s.calls[c].session.IsActive(s.clock) && s.calls[c].user.isActive && s.cacheTtl > 0
    ensures var n := |s.calls|;
            var after := Run(s, LogoutOvertaken(s.calls[c].token, c, n));
            && s.calls[c].token !in after.sessions && |after.calls| == n + 2
            && after.calls[n] == LoggedOut(s.calls[c].token, None)
            && after.calls[n + 1].Answered? && after.calls[n + 1].token == s.calls[c].token && after.calls[n + 1].answer.Ok?
  {
    var token, n := s.calls[c].token, |s.calls|;
    var before := [Evict(token, true), DeleteRow(n, Applied)] + [Reckon(c), CacheSet(c, true), CacheGet(token, true)];
    TriedAfterLogout(s, c);
    RunThen(s, before, Check(n + 1));
    CheckLetsIn(Run(s, before), n + 1);
  }

  /** One user logs in, and an authentication reads the row. */
  function ReadOnce(userId: Id, token: Token, clock: Instant): seq<Action> {
    [CreateSession(userId, token, clock, Applied), CacheGet(token, true), StoreGet(0, true)]
  }

  lemma ReadOnceReads(clock: Instant, cacheTtl: int, sessionTtl: int, users: map<Id, Account>, userId: Id, token: Token)
    requires userId in users && token != NO_TOKEN
    ensures var session := Session(userId, clock + sessionTtl);
            Run(Start(clock, cacheTtl, sessionTtl, users), ReadOnce(userId, token, clock))
            == State(clock, cacheTtl, sessionTtl, map[token := session], users, {token}, map[],
                     [ReadThrough(token, session, users[userId], clock)])
  {
    var start := Start(clock, cacheTtl, sessionTtl, users);
    RunThree(start, CreateSession(userId, token, clock, Applied), CacheGet(token, true), StoreGet(0, true));
    var created := Step(start, CreateSession(userId, token, clock, Applied));
    assert created.sessions == map[token := Session(userId, clock + sessionTtl)] && created.issued == {token};
    assert Step(created, CacheGet(token, true)).calls == [Missed(token)];
  }

  /** From nothing: a user logs in and out, the logout reports success, and the token is let in again. */
  lemma LetInAfterLogout(clock: Instant, cacheTtl: int, sessionTtl: int, users: map<Id, Account>, userId: Id, token: Token)
    requires userId in users && users[userId].isActive && token != NO_TOKEN && cacheTtl > 0 && sessionTtl > 0
    ensures var after := Run(Start(clock, cacheTtl, sessionTtl, users), ReadOnce(userId, token, clock) + LogoutOvertaken(token, 0, 1));
            && token !in after.sessions && |after.calls| == 3 && after.calls[1] == LoggedOut(token, None)
            && after.calls[2].Answered? && after.calls[2].token == token && after.calls[2].answer.Ok?
  {
    var start := Start(clock, cacheTtl, sessionTtl, users);
    ReadOnceReads(clock, cacheTtl, sessionTtl, users, userId, token);
    RunConcat(start, ReadOnce(userId, token, clock), LogoutOvertaken(token, 0, 1));
    LogoutCanBeOvertaken(Run(start, ReadOnce(userId, token, clock)), 0);
  }

  /** The step does one of the three. */
  ghost predicate Disturbs(s: State, a: Action) {
    PutsStale(s, a) || DeletesUnderEntry(s, a) || ChangesUnderEntry(s, a)
  }

  lemma {:induction false} IssuedAlways(s: State, acts: seq<Action>)
    requires TokensIssued(s)
    ensures TokensIssued(Run(s, acts))
  {
    if acts != [] {
      IssuedAlways(s, acts[..|acts| - 1]);
      StepKeepsTokensIssued(Run(s, acts[..|acts| - 1]), acts[|acts| - 1]);
    }
  }

  /** Cache and store agree at every moment of a run. */
  ghost predicate AgreeThroughout(s: State, acts: seq<Action>) {
    forall k :: 0 <= k <= |acts| ==> Agree(Run(s, acts[..k]))
  }

  ghost predicate Undisturbed(s: State, acts: seq<Action>) {
    forall k :: 0 <= k < |acts| ==> !Disturbs(Run(s, acts[..k]), acts[k])
  }

  lemma {:induction false} ThroughoutSplits(s: State, acts: seq<Action>)
    requires acts != []
    ensures AgreeThroughout(s, acts) <==> AgreeThroughout(s, acts[..|acts| - 1]) && Agree(Run(s, acts))
  {
    var init := acts[..|acts| - 1];
    assert acts[..|acts|] == acts;
    assert forall k :: 0 <= k <= |init| ==> acts[..k] == init[..k];
  }

  lemma {:induction false} UndisturbedSplits(s: State, acts: seq<Action>)
    requires acts != []
    ensures Undisturbed(s, acts) <==>
            Undisturbed(s, acts[..|acts| - 1]) && !Disturbs(Run(s, acts[..|acts| - 1]), acts[|acts| - 1])
  {
    var init := acts[..|acts| - 1];
    assert forall k :: 0 <= k <= |init| ==> acts[..k] == init[..k];
  }

  lemma {:induction false} AgreesNow(s: State, acts: seq<Action>)
    requires AgreeThroughout(s, acts)
    ensures Agree(Run(s, acts))
  {
    assert acts[..|acts|] == acts;
  }

  /** Over every run, with everything interleaved: cache and store agree throughout if and only if no step does one of the three. */
  lemma {:induction false} AgreeThroughoutExactly(s: State, acts: seq<Action>)
    requires Fine(s)
    ensures AgreeThroughout(s, acts) <==> Undisturbed(s, acts)
  {
    if acts != [] {
      var init := acts[..|acts| - 1];
      AgreeThroughoutExactly(s, init);
      ThroughoutSplits(s, acts);
      UndisturbedSplits(s, acts);
      if AgreeThroughout(s, init) {
        AgreesNow(s, init);
        IssuedAlways(s, init);
        AgreesExactly(Run(s, init), acts[|acts| - 1]);
      }
    }
  }

  /** After any interleaved run that does none of the three, an authentication left alone answers as the store would. */
  lemma TransparentWhileUndisturbed(clock: Instant, cacheTtl: int, sessionTtl: int, users: map<Id, Account>, acts: seq<Action>,
                                    token: Token, cacheUp: bool, readOk: bool, putUp: bool)
    requires Undisturbed(Start(clock, cacheTtl, sessionTtl, users), acts)
    ensures var s := Run(Start(clock, cacheTtl, sessionTtl, users), acts);
            var after := After(s, Authenticate(token, cacheUp, readOk, putUp));
            && |after.calls| == |s.calls| + 1 && after.calls[|s.calls|].Answered?
            && Seen(after.calls[|s.calls|].answer)
               == if AsksStore(s, token, cacheUp) && !readOk then Err(StorageFailed) else Cacheless(s, token)
  {
    var start := Start(clock, cacheTtl, sessionTtl, users);
    AgreeThroughoutExactly(start, acts);
    AgreesNow(start, acts);
    IssuedAlways(start, acts);
    AuthenticateSteps(Run(start, acts), token, cacheUp, readOk, putUp);
  }
}
