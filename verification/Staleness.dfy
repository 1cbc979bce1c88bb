/** How stale an authentication can be, with every step interleaved and anything failing. */
module Staleness {
  import opened Wrappers
  import opened Calendar
  import opened Courts
  import opened Payments
  import opened Sessions
  import opened Transparency

  /** At some moment of the run, the clock reading `at`, the store held the session with this user. */
  ghost predicate StoreHeld(start: State, acts: seq<Action>, token: Token, session: Session, user: Account, at: Instant) {
    exists k :: 0 <= k <= |acts| && HeldAfter(start, acts[..k], token, session, user, at)
  }

  predicate HeldAfter(start: State, acts: seq<Action>, token: Token, session: Session, user: Account, at: Instant) {
    var s := Run(start, acts);
    InStore(s, token) && s.sessions[token] == session && s.users[session.userId] == user && s.clock == at
  }

  ghost predicate EntrySound(start: State, acts: seq<Action>, token: Token, e: Entry) {
    var s := Run(start, acts);
    && e.deadline == e.putAt + EntryTtl(s.cacheTtl, e.session, e.computedAt)
    && e.readAt <= e.computedAt <= e.putAt <= s.clock
    && StoreHeld(start, acts, token, e.session, e.user, e.readAt)
  }

  ghost predicate FoundSound(start: State, acts: seq<Action>, token: Token, f: Found, limit: Instant) {
    var s := Run(start, acts);
    && f.readAt <= f.putAt <= f.gotAt <= limit <= s.clock
    && (f.gotAt == f.putAt || f.gotAt < f.putAt + s.cacheTtl)
    && StoreHeld(start, acts, token, f.session, f.user, f.readAt)
  }

  ghost predicate CallSound(start: State, acts: seq<Action>, call: Call) {
    match call
    case ReadThrough(token, session, user, readAt) =>
      readAt <= Run(start, acts).clock && StoreHeld(start, acts, token, session, user, readAt)
    case Caching(token, session, user, readAt, life, computedAt) =>
      && readAt <= computedAt <= Run(start, acts).clock
      && life == EntryTtl(Run(start, acts).cacheTtl, session, computedAt)
      && StoreHeld(start, acts, token, session, user, readAt)
    case Have(token, found) => FoundSound(start, acts, token, found, Run(start, acts).clock)
    case Answered(token, Ok(found), at) =>
      FoundSound(start, acts, token, found, at) && at < found.session.expiresAt && found.user.isActive
    case _ => true
  }

  ghost predicate Sound(start: State, acts: seq<Action>) {
    var s := Run(start, acts);
    && (forall token :: token in s.cache ==> EntrySound(start, acts, token, s.cache[token]))
    && (forall c :: 0 <= c < |s.calls| ==> CallSound(start, acts, s.calls[c]))
  }

  lemma StoreHeldLater(start: State, acts: seq<Action>, a: Action, token: Token, session: Session, user: Account, at: Instant)
    requires StoreHeld(start, acts, token, session, user, at)
    ensures StoreHeld(start, acts + [a], token, session, user, at)
  {
    var k :| 0 <= k <= |acts| && HeldAfter(start, acts[..k], token, session, user, at);
    assert (acts + [a])[..k] == acts[..k];
  }

  lemma StoreHeldNow(start: State, acts: seq<Action>, token: Token)
    requires InStore(Run(start, acts), token)
    ensures var s := Run(start, acts);
            StoreHeld(start, acts, token, s.sessions[token], s.users[s.sessions[token].userId], s.clock)
  {
    var s := Run(start, acts);
    assert acts[..|acts|] == acts;
    assert HeldAfter(start, acts[..|acts|], token, s.sessions[token], s.users[s.sessions[token].userId], s.clock);
  }

  /** What a call already knew stays true. */
  lemma CallSoundLater(start: State, acts: seq<Action>, a: Action, call: Call)
    requires CallSound(start, acts, call)
    ensures CallSound(start, acts + [a], call)
  {
    RunThen(start, acts, a);
    ClockForward(Run(start, acts), a);
    match call
    case ReadThrough(token, session, user, readAt) => StoreHeldLater(start, acts, a, token, session, user, readAt);
    case Caching(token, session, user, readAt, _, _) => StoreHeldLater(start, acts, a, token, session, user, readAt);
    case Have(token, f) => StoreHeldLater(start, acts, a, token, f.session, f.user, f.readAt);
    case Answered(token, Ok(f), at) => StoreHeldLater(start, acts, a, token, f.session, f.user, f.readAt);
    case _ =>
  }

  /** Where an entry of the cache comes from. */
  lemma WhatCaches(s: State, a: Action, token: Token)
    requires token in Step(s, a).cache
    ensures || (token in s.cache && Step(s, a).cache[token] == s.cache[token])
            || (a.CacheSet? && a.call < |s.calls| && s.calls[a.call].Caching? && s.calls[a.call].token == token
                && var r := s.calls[a.call];
                   Step(s, a).cache[token] == Entry(r.session, r.user, s.clock + r.life, s.clock, r.computedAt, r.readAt))
  {
  }

  lemma EntriesStaySound(start: State, acts: seq<Action>, a: Action, token: Token)
    requires Sound(start, acts) && token in Run(start, acts + [a]).cache
    ensures EntrySound(start, acts + [a], token, Run(start, acts + [a]).cache[token])
  {
    var s := Run(start, acts);
    RunThen(start, acts, a);
    ClockForward(s, a);
    WhatCaches(s, a, token);
    var e := Run(start, acts + [a]).cache[token];
    if token in s.cache && e == s.cache[token] {
      StoreHeldLater(start, acts, a, token, e.session, e.user, e.readAt);
    } else {
      assert CallSound(start, acts, s.calls[a.call]);
      StoreHeldLater(start, acts, a, token, e.session, e.user, e.readAt);
    }
  }

  /** How a call comes to be what it is. */
  lemma WhatCalls(s: State, a: Action, c: nat)
    requires c < |Step(s, a).calls|
    ensures var next := Step(s, a).calls[c];
            || (c < |s.calls| && next == s.calls[c])
            || (a.CacheGet? && next == BeginAuthenticate(s, a.token, a.up))
            || (a.StoreGet? && c < |s.calls| && s.calls[c].Missed? && next == ReadStore(s, s.calls[c].token, a.readOk))
            || (a.Reckon? && c < |s.calls| && s.calls[c].ReadThrough? && next == ReckonLife(s.calls[c], s.cacheTtl, s.clock))
            || (a.CacheSet? && c < |s.calls| && s.calls[c].Caching? && next.Have? && next.token == s.calls[c].token
                && next.found == Found(s.calls[c].session, s.calls[c].user, s.calls[c].readAt, s.clock, s.clock))
            || (a.Check? && c < |s.calls| && s.calls[c].Have?
                && next == Answered(s.calls[c].token, Verdict(s.calls[c].found, s.clock), s.clock))
            || next.Evicted? || next.LoggedOut?
  {
  }

  /** What the cache gives back is what the store held. */
  lemma HitSound(start: State, acts: seq<Action>, token: Token, up: bool)
    requires Sound(start, acts)
    ensures var hit := BeginAuthenticate(Run(start, acts), token, up);
            hit.Have? ==> CallSound(start, acts, hit)
  {
  }

  lemma CallsStaySound(start: State, acts: seq<Action>, a: Action, c: nat)
    requires Sound(start, acts) && c < |Run(start, acts + [a]).calls|
    ensures CallSound(start, acts + [a], Run(start, acts + [a]).calls[c])
  {
    var s := Run(start, acts);
    RunThen(start, acts, a);
    var next := Step(s, a).calls[c];
    WhatCalls(s, a, c);
    if c < |s.calls| && next == s.calls[c] {
      CallSoundLater(start, acts, a, next);
    } else if next.ReadThrough? {
      StoreHeldNow(start, acts, next.token);
      CallSoundLater(start, acts, a, next);
    } else if a.CacheGet? {
      if next.Have? {
        HitSound(start, acts, a.token, a.up);
        CallSoundLater(start, acts, a, next);
      }
    } else if a.Reckon? || a.CacheSet? || a.Check? {
      assert CallSound(start, acts, s.calls[c]);
      CallSoundLater(start, acts, a, next);
    }
  }

  lemma {:induction false} RunSound(start: State, acts: seq<Action>)
    requires start.calls == [] && start.cache == map[]
    ensures Sound(start, acts)
  {
    if acts != [] {
      var init, a := acts[..|acts| - 1], acts[|acts| - 1];
      RunSound(start, init);
      assert acts == init + [a];
      forall token | token in Run(start, acts).cache ensures EntrySound(start, acts, token, Run(start, acts).cache[token]) {
        EntriesStaySound(start, init, a, token);
      }
      forall c | 0 <= c < |Run(start, acts).calls| ensures CallSound(start, acts, Run(start, acts).calls[c]) {
        CallsStaySound(start, init, a, c);
      }
    }
  }

  /**
   In every run an entry outlives its session by no more than the pause between computing its
   lifetime and Redis applying it, and stays inside the session exactly while that pause is no
   longer than what the lifetime left of the session.
   */
  lemma EntryOutlivesByThePause(clock: Instant, cacheTtl: int, sessionTtl: int, users: map<Id, Account>, acts: seq<Action>, token: Token)
    requires token in Run(Start(clock, cacheTtl, sessionTtl, users), acts).cache
    ensures var e := Run(Start(clock, cacheTtl, sessionTtl, users), acts).cache[token];
            var spare := e.session.expiresAt - e.computedAt - EntryTtl(cacheTtl, e.session, e.computedAt);
            && 0 <= spare && e.computedAt <= e.putAt
            && e.deadline <= e.session.expiresAt + (e.putAt - e.computedAt)
            && (e.deadline <= e.session.expiresAt <==> e.putAt - e.computedAt <= spare)
  {
    RunSound(Start(clock, cacheTtl, sessionTtl, users), acts);
    RunForward(Start(clock, cacheTtl, sessionTtl, users), acts);
  }

  /** The row is read in the last nanosecond of its session, its lifetime computed, and the SET delayed by the pause. */
  function OverrunningRun(clock: Instant, sessionTtl: int, userId: Id, token: Token, pause: nat): seq<Action> {
    var last := clock + sessionTtl - 1;
    [CreateSession(userId, token, clock, Applied), Advance(last)]
    + ([CacheGet(token, true), StoreGet(0, true)] + [Reckon(0), Advance(last + pause), CacheSet(0, true)])
  }

  lemma LastReadOverruns(s: State, token: Token, pause: nat)
    requires s.calls == [] && s.cache == map[] && s.cacheTtl > 0 && token != NO_TOKEN && InStore(s, token)
    requires s.sessions[token].expiresAt == s.clock + 1
    ensures var after := Run(s, [CacheGet(token, true), StoreGet(0, true)] + [Reckon(0), Advance(s.clock + pause), CacheSet(0, true)]);
            token in after.cache && after.cache[token].deadline == s.clock + 1 + pause
            && after.cache[token].session == s.sessions[token]
  {
    var look, put := [CacheGet(token, true), StoreGet(0, true)], [Reckon(0), Advance(s.clock + pause), CacheSet(0, true)];
    RunConcat(s, look, put);
    RunTwo(s, CacheGet(token, true), StoreGet(0, true));
    var session, user := s.sessions[token], s.users[s.sessions[token].userId];
    var read := s.(calls := [ReadThrough(token, session, user, s.clock)]);
    assert Run(s, look) == read;
    RunThree(read, Reckon(0), Advance(s.clock + pause), CacheSet(0, true));
    var late := s.(clock := s.clock + pause, calls := [Caching(token, session, user, s.clock, 1, s.clock)]);
    assert Step(Step(read, Reckon(0)), Advance(s.clock + pause)) == late;
    SetOnly(late, token, Entry(session, user, late.clock + 1, late.clock, s.clock, s.clock));
  }

  /** The bound is attained: whatever the two lifetimes, for every pause a run leaves an entry that outlives its session by just that. */
  lemma EntryOverruns(clock: Instant, cacheTtl: int, sessionTtl: int, users: map<Id, Account>, userId: Id, token: Token, pause: nat)
    requires userId in users && token != NO_TOKEN && sessionTtl > 0 && cacheTtl > 0
    ensures var after := Run(Start(clock, cacheTtl, sessionTtl, users), OverrunningRun(clock, sessionTtl, userId, token, pause));
            token in after.cache && after.cache[token].deadline == after.cache[token].session.expiresAt + pause
  {
    var start, last := Start(clock, cacheTtl, sessionTtl, users), clock + sessionTtl - 1;
    var logIn := [CreateSession(userId, token, clock, Applied), Advance(last)];
    var rest := [CacheGet(token, true), StoreGet(0, true)] + [Reckon(0), Advance(last + pause), CacheSet(0, true)];
    RunConcat(start, logIn, rest);
    RunTwo(start, CreateSession(userId, token, clock, Applied), Advance(last));
    LastReadOverruns(Run(start, logIn), token, pause);
  }

  /** The most that the cache adds to the age of an answer: an entry is not found at its deadline. */
  function CacheAge(cacheTtl: int): nat {
    if cacheTtl > 0 then cacheTtl - 1 else 0
  }

  /** Neither the pause between the reading of the store and its caching, by whichever request, nor that between the call's lookup and its check was longer. */
  predicate PausesWithin(call: Call, pause: nat)
    requires call.Answered? && call.answer.Ok?
  {
    call.answer.value.putAt - call.answer.value.readAt <= pause && call.at - call.answer.value.gotAt <= pause
  }

  /** No session runs longer than the service gives it. */
  lemma StepSessionsRunOut(s: State, a: Action)
    requires forall token :: token in s.sessions ==> s.sessions[token].expiresAt <= s.clock + s.sessionTtl
    ensures var s' := Step(s, a);
            forall token :: token in s'.sessions ==> s'.sessions[token].expiresAt <= s'.clock + s.sessionTtl
  {
  }

  lemma {:induction false} SessionsRunOut(s: State, acts: seq<Action>)
    requires forall token :: token in s.sessions ==> s.sessions[token].expiresAt <= s.clock + s.sessionTtl
    ensures var after := Run(s, acts);
            forall token :: token in after.sessions ==> after.sessions[token].expiresAt <= after.clock + s.sessionTtl
  {
    if acts != [] {
      SessionsRunOut(s, acts[..|acts| - 1]);
      RunForward(s, acts[..|acts| - 1]);
      StepSessionsRunOut(Run(s, acts[..|acts| - 1]), acts[|acts| - 1]);
    }
  }

  lemma HeldRunsOut(clock: Instant, cacheTtl: int, sessionTtl: int, users: map<Id, Account>, acts: seq<Action>,
                    token: Token, session: Session, user: Account, at: Instant)
    requires StoreHeld(Start(clock, cacheTtl, sessionTtl, users), acts, token, session, user, at)
    ensures session.expiresAt <= at + sessionTtl && users != map[]
  {
    var start := Start(clock, cacheTtl, sessionTtl, users);
    var k :| 0 <= k <= |acts| && HeldAfter(start, acts[..k], token, session, user, at);
    SessionsRunOut(start, acts[..k]);
    SameUsers(start, acts[..k]);
    assert session.userId in users;
  }

  lemma {:induction false} SameUsers(s: State, acts: seq<Action>)
    ensures Run(s, acts).users.Keys == s.users.Keys
  {
    if acts != [] {
      SameUsers(s, acts[..|acts| - 1]);
    }
  }

  /**
   Whatever is deactivated, deleted, lost or failing: an authentication that succeeds does so on a
   session unexpired at that moment, which the store held with its user active at a moment less
   than the session lifetime back, and no further back than the cache lifetime and the two pauses.
   */
  lemma SuccessIsRecent(clock: Instant, cacheTtl: int, sessionTtl: int, users: map<Id, Account>, acts: seq<Action>, c: nat, pause: nat)
    requires c < |Run(Start(clock, cacheTtl, sessionTtl, users), acts).calls|
    ensures var start := Start(clock, cacheTtl, sessionTtl, users);
            var call := Run(start, acts).calls[c];
            call.Answered? && call.answer.Ok? ==>
              var f := call.answer.value;
              && call.at < f.session.expiresAt && f.user.isActive
              && StoreHeld(start, acts, call.token, f.session, f.user, f.readAt)
              && 0 <= call.at - f.readAt < sessionTtl
              && (PausesWithin(call, pause) ==> call.at - f.readAt <= CacheAge(cacheTtl) + 2 * pause)
  {
    var start := Start(clock, cacheTtl, sessionTtl, users);
    RunSound(start, acts);
    RunForward(start, acts);
    var call := Run(start, acts).calls[c];
    assert CallSound(start, acts, call);
    if call.Answered? && call.answer.Ok? {
      var f := call.answer.value;
      HeldRunsOut(clock, cacheTtl, sessionTtl, users, acts, call.token, f.session, f.user, f.readAt);
    }
  }

  /** The store never held this session with this user later than at `last`. */
  ghost predicate HeldNoLater(start: State, acts: seq<Action>, token: Token, session: Session, user: Account, last: Instant) {
    forall k, at :: 0 <= k <= |acts| && HeldAfter(start, acts[..k], token, session, user, at) ==> at <= last
  }

  /** A call let the token in on a lookup that the store had last held at least d before. */
  ghost predicate StaleBy(start: State, acts: seq<Action>, c: nat, pause: nat, d: int) {
    var s := Run(start, acts);
    && c < |s.calls| && s.calls[c].Answered? && s.calls[c].answer.Ok? && PausesWithin(s.calls[c], pause)
    && var f := s.calls[c].answer.value;
       HeldNoLater(start, acts, s.calls[c].token, f.session, f.user, s.calls[c].at - d)
  }

  ghost predicate CanBeStale(start: State, pause: nat, d: int) {
    exists acts, c :: StaleBy(start, acts, c, pause, d)
  }

  /** The stalest a success can be whose two pauses are within the given one: what the cache and the pauses allow, before the session expires. */
  function MostStale(cacheTtl: int, sessionTtl: int, pause: nat): int {
    if sessionTtl - 1 < CacheAge(cacheTtl) + 2 * pause then sessionTtl - 1 else CacheAge(cacheTtl) + 2 * pause
  }

  lemma NeverStaler(clock: Instant, cacheTtl: int, sessionTtl: int, users: map<Id, Account>, acts: seq<Action>, c: nat, pause: nat, d: int)
    requires StaleBy(Start(clock, cacheTtl, sessionTtl, users), acts, c, pause, d)
    ensures users != map[] && 0 < sessionTtl && d <= MostStale(cacheTtl, sessionTtl, pause)
  {
    var start := Start(clock, cacheTtl, sessionTtl, users);
    SuccessIsRecent(clock, cacheTtl, sessionTtl, users, acts, c, pause);
    var call := Run(start, acts).calls[c];
    var f := call.answer.value;
    HeldRunsOut(clock, cacheTtl, sessionTtl, users, acts, call.token, f.session, f.user, f.readAt);
    var k :| 0 <= k <= |acts| && HeldAfter(start, acts[..k], call.token, f.session, f.user, f.readAt);
  }

  /** While time stands still the store holds nothing later. */
  lemma {:induction false} StandsStill(start: State, acts: seq<Action>)
    requires forall k :: 0 <= k < |acts| ==> !acts[k].Advance?
    ensures Run(start, acts).clock == start.clock
  {
    if acts != [] {
      StandsStill(start, acts[..|acts| - 1]);
    }
  }

  lemma HeldWhileStill(start: State, acts: seq<Action>, token: Token, session: Session, user: Account)
    requires forall k :: 0 <= k < |acts| ==> !acts[k].Advance?
    ensures HeldNoLater(start, acts, token, session, user, start.clock)
  {
    forall k | 0 <= k <= |acts| ensures Run(start, acts[..k]).clock == start.clock {
      StandsStill(start, acts[..k]);
    }
  }

  /** Once the account differs it goes on differing while nobody sets it. */
  lemma {:induction false} HeldNoMore(start: State, acts: seq<Action>, more: seq<Action>,
                                      token: Token, session: Session, user: Account, last: Instant)
    requires HeldNoLater(start, acts, token, session, user, last)
    requires var now := Run(start, acts); session.userId in now.users && now.users[session.userId] != user
    requires forall k :: 0 <= k < |more| ==> !more[k].SetActive?
    ensures HeldNoLater(start, acts + more, token, session, user, last)
    ensures Run(start, acts + more).users == Run(start, acts).users
  {
    if more == [] {
      assert acts + more == acts;
    } else {
      var init := more[..|more| - 1];
      HeldNoMore(start, acts, init, token, session, user, last);
      assert acts + more == (acts + init) + [more[|more| - 1]];
      RunThen(start, acts + init, more[|more| - 1]);
      HeldExtends(start, acts + init, more[|more| - 1], token, session, user, last);
    }
  }

  lemma HeldExtends(start: State, acts: seq<Action>, a: Action, token: Token, session: Session, user: Account, last: Instant)
    requires HeldNoLater(start, acts, token, session, user, last)
    requires var next := Run(start, acts + [a]); session.userId in next.users ==> next.users[session.userId] != user
    ensures HeldNoLater(start, acts + [a], token, session, user, last)
  {
    assert (acts + [a])[..|acts + [a]|] == acts + [a];
    forall k, at | 0 <= k <= |acts + [a]| && HeldAfter(start, (acts + [a])[..k], token, session, user, at) ensures at <= last {
      if k <= |acts| {
        assert (acts + [a])[..k] == acts[..k];
      }
    }
  }

  /** An active user logs in, a request reads the row, and the account is deactivated at once. */
  function ReadThenDeactivated(userId: Id, token: Token, clock: Instant): seq<Action> {
    ([SetActive(userId, true)] + ReadOnce(userId, token, clock)) + [SetActive(userId, false)]
  }

  lemma ReadThenDeactivatedReads(clock: Instant, cacheTtl: int, sessionTtl: int, users: map<Id, Account>, userId: Id, token: Token)
    requires userId in users && token != NO_TOKEN
    ensures var start, acts := Start(clock, cacheTtl, sessionTtl, users), ReadThenDeactivated(userId, token, clock);
            var session := Session(userId, clock + sessionTtl);
            && Run(start, acts) == State(clock, cacheTtl, sessionTtl, map[token := session], users[userId := Account(false)], {token},
                                         map[], [ReadThrough(token, session, Account(true), clock)])
            && HeldNoLater(start, acts, token, session, Account(true), clock)
  {
    var start, read := Start(clock, cacheTtl, sessionTtl, users), ReadOnce(userId, token, clock);
    var active := users[userId := Account(true)];
    RunOne(start, SetActive(userId, true));
    RunConcat(start, [SetActive(userId, true)], read);
    ReadOnceReads(clock, cacheTtl, sessionTtl, active, userId, token);
    RunThen(start, [SetActive(userId, true)] + read, SetActive(userId, false));
    assert active[userId := Account(false)] == users[userId := Account(false)];
    HeldWhileStill(start, ReadThenDeactivated(userId, token, clock), token, Session(userId, clock + sessionTtl), Account(true));
  }

  /** The lookup is cached at the given moment. */
  function CachedLate(at: Instant): seq<Action> {
    [Advance(at), Reckon(0), CacheSet(0, true)]
  }

  /** Another request finds it at one moment and checks it at another. */
  function FoundLate(token: Token, found: Instant, checked: Instant): seq<Action> {
    [Advance(found), CacheGet(token, true)] + [Advance(checked), Check(1)]
  }

  lemma ReckonedLate(s: State, at: Instant, token: Token, session: Session, life: int)
    requires s.calls == [ReadThrough(token, session, Account(true), s.clock)] && s.clock <= at
    requires life == EntryTtl(s.cacheTtl, session, at) && life > 0
    ensures Step(Step(s, Advance(at)), Reckon(0))
         == s.(clock := at, calls := [Caching(token, session, Account(true), s.clock, life, at)])
  {
  }

  lemma CachedLateCaches(s: State, at: Instant, token: Token, session: Session, life: int)
    requires s.calls == [ReadThrough(token, session, Account(true), s.clock)] && s.cache == map[] && s.clock <= at
    requires life == EntryTtl(s.cacheTtl, session, at) && life > 0
    ensures var e := Entry(session, Account(true), at + life, at, at, s.clock);
            var cached := Run(s, CachedLate(at));
            && cached.clock == at && cached.cache == map[token := e] && cached.users == s.users
            && |cached.calls| == 1
  {
    ReckonedLate(s, at, token, session, life);
    var late := s.(clock := at, calls := [Caching(token, session, Account(true), s.clock, life, at)]);
    SetOnly(late, token, Entry(session, Account(true), at + life, at, at, s.clock));
    RunThree(s, Advance(at), Reckon(0), CacheSet(0, true));
    assert Run(s, CachedLate(at)) == Step(late, CacheSet(0, true));
  }

  lemma SetOnly(s: State, token: Token, e: Entry)
    requires s.calls == [Caching(token, e.session, e.user, e.readAt, e.deadline - s.clock, e.computedAt)]
    requires s.cache == map[] && e.putAt == s.clock
    ensures Step(s, CacheSet(0, true))
         == s.(cache := map[token := e], calls := [Have(token, Found(e.session, e.user, e.readAt, s.clock, s.clock))])
  {
    assert s.cache[token := e] == map[token := e];
  }

  lemma FoundLateLetsIn(s: State, found: Instant, checked: Instant, token: Token)
    requires |s.calls| == 1 && token != NO_TOKEN && token in s.cache && s.clock <= found < s.cache[token].deadline
    requires found <= checked < s.cache[token].session.expiresAt && s.cache[token].user.isActive
    ensures var e, after := s.cache[token], Run(s, FoundLate(token, found, checked));
            |after.calls| == 2
            && after.calls[1] == Answered(token, Ok(Found(e.session, e.user, e.readAt, e.putAt, found)), checked)
  {
    var e := s.cache[token];
    RunConcat(s, [Advance(found), CacheGet(token, true)], [Advance(checked), Check(1)]);
    RunTwo(s, Advance(found), CacheGet(token, true));
    var got := Run(s, [Advance(found), CacheGet(token, true)]);
    assert got.calls == s.calls + [Have(token, Found(e.session, e.user, e.readAt, e.putAt, found))];
    RunTwo(got, Advance(checked), Check(1));
  }

  /** The later of the moments the pause and the session allow for caching. */
  function LatestPut(clock: Instant, sessionTtl: int, pause: nat): Instant {
    if sessionTtl - 1 < pause then clock + sessionTtl - 1 else clock + pause
  }

  /** The last moment at which Redis still has what was cached then. */
  function LatestFind(clock: Instant, cacheTtl: int, sessionTtl: int, pause: nat): Instant {
    var put := LatestPut(clock, sessionTtl, pause);
    put + EntryTtl(cacheTtl, Session(0, clock + sessionTtl), put) - 1
  }

  function UsedLate(clock: Instant, cacheTtl: int, sessionTtl: int, token: Token, pause: nat): seq<Action> {
    CachedLate(LatestPut(clock, sessionTtl, pause))
    + FoundLate(token, LatestFind(clock, cacheTtl, sessionTtl, pause), clock + MostStale(cacheTtl, sessionTtl, pause))
  }

  /** The stalest run there is with a working cache: cached, found and checked as late as can be. */
  function StaleRun(clock: Instant, cacheTtl: int, sessionTtl: int, userId: Id, token: Token, pause: nat): seq<Action> {
    ReadThenDeactivated(userId, token, clock) + UsedLate(clock, cacheTtl, sessionTtl, token, pause)
  }

  /** There is room for the three: one after the other, each within its pause, and before the session expires. */
  lemma RoomForStaleRun(clock: Instant, cacheTtl: int, sessionTtl: int, pause: nat, userId: Id)
    requires cacheTtl > 0 && sessionTtl > 0
    ensures var put, found := LatestPut(clock, sessionTtl, pause), LatestFind(clock, cacheTtl, sessionTtl, pause);
            var checked := clock + MostStale(cacheTtl, sessionTtl, pause);
            && clock <= put <= found <= checked < clock + sessionTtl
            && found < put + EntryTtl(cacheTtl, Session(userId, clock + sessionTtl), put)
            && put - clock <= pause && checked - found <= pause
  {
  }

  lemma CachedThenFound(s: State, put: Instant, found: Instant, checked: Instant, token: Token, session: Session, life: int)
    requires s.calls == [ReadThrough(token, session, Account(true), s.clock)] && s.cache == map[] && token != NO_TOKEN
    requires life == EntryTtl(s.cacheTtl, session, put) && s.clock <= put <= found < put + life
    requires found <= checked < session.expiresAt
    ensures var after := Run(s, CachedLate(put) + FoundLate(token, found, checked));
            |after.calls| == 2
            && after.calls[1] == Answered(token, Ok(Found(session, Account(true), s.clock, put, found)), checked)
  {
    CachedLateCaches(s, put, token, session, life);
    FoundLateLetsIn(Run(s, CachedLate(put)), found, checked, token);
    RunConcat(s, CachedLate(put), FoundLate(token, found, checked));
  }

  /** A lookup of an active account, used as late as there is any room for. */
  lemma UsedLateLetsIn(s: State, token: Token, session: Session, pause: nat)
    requires s.calls == [ReadThrough(token, session, Account(true), s.clock)] && s.cache == map[] && token != NO_TOKEN
    requires s.cacheTtl > 0 && s.sessionTtl > 0 && session.expiresAt == s.clock + s.sessionTtl
    ensures var put, found := LatestPut(s.clock, s.sessionTtl, pause), LatestFind(s.clock, s.cacheTtl, s.sessionTtl, pause);
            var after := Run(s, UsedLate(s.clock, s.cacheTtl, s.sessionTtl, token, pause));
            |after.calls| == 2
            && after.calls[1] == Answered(token, Ok(Found(session, Account(true), s.clock, put, found)),
                                          s.clock + MostStale(s.cacheTtl, s.sessionTtl, pause))
  {
    var put, found := LatestPut(s.clock, s.sessionTtl, pause), LatestFind(s.clock, s.cacheTtl, s.sessionTtl, pause);
    var checked := s.clock + MostStale(s.cacheTtl, s.sessionTtl, pause);
    RoomForStaleRun(s.clock, s.cacheTtl, s.sessionTtl, pause, session.userId);
    CachedThenFound(s, put, found, checked, token, session, EntryTtl(s.cacheTtl, session, put));
  }

  /** With the account deactivated the moment it was read, a request is let in as late as there is any room for. */
  lemma StaleRunIsStale(clock: Instant, cacheTtl: int, sessionTtl: int, users: map<Id, Account>, userId: Id, token: Token, pause: nat)
    requires userId in users && token != NO_TOKEN && cacheTtl > 0 && sessionTtl > 0
    ensures StaleBy(Start(clock, cacheTtl, sessionTtl, users), StaleRun(clock, cacheTtl, sessionTtl, userId, token, pause), 1, pause,
                    MostStale(cacheTtl, sessionTtl, pause))
  {
    var start, session := Start(clock, cacheTtl, sessionTtl, users), Session(userId, clock + sessionTtl);
    var first, rest := ReadThenDeactivated(userId, token, clock), UsedLate(clock, cacheTtl, sessionTtl, token, pause);
    RoomForStaleRun(clock, cacheTtl, sessionTtl, pause, userId);
    ReadThenDeactivatedReads(clock, cacheTtl, sessionTtl, users, userId, token);
    UsedLateLetsIn(Run(start, first), token, session, pause);
    RunConcat(start, first, rest);
    HeldNoMore(start, first, rest, token, session, Account(true), clock);
  }

  /** The same with a cache that keeps nothing: only the pauses are left. */
  function UncachedStaleRun(clock: Instant, cacheTtl: int, sessionTtl: int, userId: Id, token: Token, pause: nat): seq<Action> {
    ReadThenDeactivated(userId, token, clock)
    + ([Advance(LatestPut(clock, sessionTtl, pause)), Reckon(0)] + [Advance(clock + MostStale(cacheTtl, sessionTtl, pause)), Check(0)])
  }

  lemma UncachedLetsIn(s: State, at: Instant, checked: Instant, token: Token, session: Session)
    requires s.calls == [ReadThrough(token, session, Account(true), s.clock)] && s.cacheTtl <= 0
    requires s.clock <= at <= checked < session.expiresAt
    ensures Run(s, [Advance(at), Reckon(0)] + [Advance(checked), Check(0)]).calls
         == [Answered(token, Ok(Found(session, Account(true), s.clock, at, at)), checked)]
  {
    RunConcat(s, [Advance(at), Reckon(0)], [Advance(checked), Check(0)]);
    RunTwo(s, Advance(at), Reckon(0));
    var had := s.(clock := at, calls := [Have(token, Found(session, Account(true), s.clock, at, at))]);
    assert Run(s, [Advance(at), Reckon(0)]) == had;
    RunTwo(had, Advance(checked), Check(0));
  }

  lemma UncachedStaleRunIsStale(clock: Instant, cacheTtl: int, sessionTtl: int, users: map<Id, Account>, userId: Id, token: Token, pause: nat)
    requires userId in users && token != NO_TOKEN && cacheTtl <= 0 && sessionTtl > 0
    ensures StaleBy(Start(clock, cacheTtl, sessionTtl, users), UncachedStaleRun(clock, cacheTtl, sessionTtl, userId, token, pause), 0,
                    pause, MostStale(cacheTtl, sessionTtl, pause))
  {
    var start, session := Start(clock, cacheTtl, sessionTtl, users), Session(userId, clock + sessionTtl);
    var put, checked := LatestPut(clock, sessionTtl, pause), clock + MostStale(cacheTtl, sessionTtl, pause);
    var first, rest := ReadThenDeactivated(userId, token, clock), [Advance(put), Reckon(0)] + [Advance(checked), Check(0)];
    ReadThenDeactivatedReads(clock, cacheTtl, sessionTtl, users, userId, token);
    RunConcat(start, first, rest);
    UncachedLetsIn(Run(start, first), put, checked, token, session);
    HeldNoMore(start, first, rest, token, session, Account(true), clock);
  }

  lemma StaleByLess(start: State, acts: seq<Action>, c: nat, pause: nat, d: int, less: int)
    requires StaleBy(start, acts, c, pause, d) && less <= d
    ensures StaleBy(start, acts, c, pause, less)
  {
  }

  lemma MostStaleIsReached(clock: Instant, cacheTtl: int, sessionTtl: int, users: map<Id, Account>, pause: nat, d: int)
    requires users != map[] && 0 < sessionTtl && d <= MostStale(cacheTtl, sessionTtl, pause)
    ensures CanBeStale(Start(clock, cacheTtl, sessionTtl, users), pause, d)
  {
    var start, most := Start(clock, cacheTtl, sessionTtl, users), MostStale(cacheTtl, sessionTtl, pause);
    var userId :| userId in users;
    if cacheTtl > 0 {
      StaleRunIsStale(clock, cacheTtl, sessionTtl, users, userId, 1, pause);
      StaleByLess(start, StaleRun(clock, cacheTtl, sessionTtl, userId, 1, pause), 1, pause, most, d);
    } else {
      UncachedStaleRunIsStale(clock, cacheTtl, sessionTtl, users, userId, 1, pause);
      StaleByLess(start, UncachedStaleRun(clock, cacheTtl, sessionTtl, userId, 1, pause), 0, pause, most, d);
    }
  }

  /**
   How stale a success can be, exactly: some run lets a token in on a lookup the store had last
   held at least d before, neither pause longer than given, if and only if there is anybody to log
   in, sessions last at all, and d is at most the cache lifetime less an instant and two pauses,
   and less than the session lifetime.
   */
  lemma StaleExactly(clock: Instant, cacheTtl: int, sessionTtl: int, users: map<Id, Account>, pause: nat, d: int)
    ensures CanBeStale(Start(clock, cacheTtl, sessionTtl, users), pause, d)
       <==> users != map[] && 0 < sessionTtl && d <= MostStale(cacheTtl, sessionTtl, pause)
  {
    if users != map[] && 0 < sessionTtl && d <= MostStale(cacheTtl, sessionTtl, pause) {
      MostStaleIsReached(clock, cacheTtl, sessionTtl, users, pause, d);
    }
    forall acts, c: nat | StaleBy(Start(clock, cacheTtl, sessionTtl, users), acts, c, pause, d)
      ensures users != map[] && 0 < sessionTtl && d <= MostStale(cacheTtl, sessionTtl, pause)
    {
      NeverStaler(clock, cacheTtl, sessionTtl, users, acts, c, pause, d);
    }
  }

  /** The others, whatever they do, leave the call to check its lookup at some moment t and let it in. */
  predicate LetsInAt(s: State, acts: seq<Action>, c: nat, t: Instant)
    requires c < |s.calls|
  {
    Others(acts, c) && Run(s, acts).clock == t
    && var after := Run(s, acts + [Check(c)]); c < |after.calls| && after.calls[c].Answered? && after.calls[c].answer.Ok?
  }

  /** Once a lookup is in hand its answer depends on the moment of the check and on nothing anybody does. */
  lemma OnlyTheMomentCounts(s: State, acts: seq<Action>, c: nat)
    requires c < |s.calls| && s.calls[c].Have? && Others(acts, c)
    ensures var t := Run(s, acts).clock;
            c < |Run(s, acts + [Check(c)]).calls|
            && Run(s, acts + [Check(c)]).calls[c] == Answered(s.calls[c].token, Verdict(s.calls[c].found, t), t)
  {
    OthersRun(s, acts, c);
    RunThen(s, acts, Check(c));
  }

  /** A lookup in hand can be let in at a moment exactly when that is not past and before the session's expiry, and it found the account active. */
  lemma LetInExactlyUntilExpiry(s: State, c: nat, t: Instant)
    requires c < |s.calls| && s.calls[c].Have?
    ensures (exists acts :: LetsInAt(s, acts, c, t))
       <==> s.clock <= t < s.calls[c].found.session.expiresAt && s.calls[c].found.user.isActive
  {
    var f := s.calls[c].found;
    forall acts | LetsInAt(s, acts, c, t) ensures s.clock <= t < f.session.expiresAt && f.user.isActive {
      OnlyTheMomentCounts(s, acts, c);
      RunForward(s, acts);
    }
    if s.clock <= t < f.session.expiresAt && f.user.isActive {
      RunOne(s, Advance(t));
      OnlyTheMomentCounts(s, [Advance(t)], c);
      assert LetsInAt(s, [Advance(t)], c, t);
    }
  }
}
