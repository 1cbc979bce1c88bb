/**
 The session cache, the session store and the use case over them, updated in place.

 As with bookings, everybody else may take any number of steps between two steps of a request,
 and what the methods do is a run of the step system.
 */
module AuthService {
  import opened Wrappers
  import opened Calendar
  import opened Errors
  import opened Courts
  import opened Payments
  import opened Sessions
  import opened Transparency

  /** Redis: a failing call is a miss or changes nothing. */
  class SessionCache {
    const ttl: int
    var entries: map<Token, Entry>

    constructor (ttl: int)
      ensures this.ttl == ttl && entries == map[]
    {
      this.ttl := ttl;
      entries := map[];
    }

    method GetSessionUser(token: Token, now: Instant, up: bool) returns (hit: Option<Entry>)
      ensures hit == if up && token in entries && now < entries[token].deadline then Some(entries[token]) else None
    {
      if up && token in entries && now < entries[token].deadline {
        hit := Some(entries[token]);
      } else {
        hit := None;
      }
    }

    /** PutSessionUser up to the SET: an entry is to live for the cache's lifetime or what is left of the session, whichever is less. */
    method Lifetime(session: Session, now: Instant) returns (life: int)
      ensures life <= ttl && life <= session.expiresAt - now
      ensures life == ttl || life == session.expiresAt - now
    {
      life := ttl;
      var until := session.expiresAt - now;
      if until < life {
        life := until;
      }
    }

    /** The SET of PutSessionUser: Redis counts the lifetime from when it runs it. */
    method Set(r: Call, now: Instant, up: bool)
      requires r.Caching?
      modifies this
      ensures entries == if up then SetEntry(old(entries), r, now) else old(entries)
    {
      if up {
        entries := entries[r.token := Entry(r.session, r.user, now + r.life, now, r.computedAt, r.readAt)];
      }
    }

    method DeleteSession(token: Token, up: bool)
      modifies this
      ensures entries == if up then old(entries) - {token} else old(entries)
    {
      if up {
        entries := entries - {token};
      }
    }
  }

  /** The sessions table with the users it joins to. */
  class SessionStore {
    var sessions: map<Token, Session>
    var users: map<Id, Account>
    /** Every token ever handed out. */
    var issued: set<Token>

    constructor (users: map<Id, Account>)
      ensures sessions == map[] && this.users == users && issued == {}
    {
      sessions := map[];
      this.users := users;
      issued := {};
    }

    method GetSessionUser(token: Token, readOk: bool) returns (row: Result<(Session, Account), Error>)
      ensures row == if !readOk then Err(StorageFailed)
                     else if token in sessions && sessions[token].userId in users then
                       Ok((sessions[token], users[sessions[token].userId]))
                     else Err(SessionInvalid)
    {
      if !readOk {
        return Err(StorageFailed);
      }
      if token !in sessions || sessions[token].userId !in users {
        return Err(SessionInvalid);
      }
      row := Ok((sessions[token], users[sessions[token].userId]));
    }

    method DeleteSession(token: Token, fate: Fate) returns (failure: Option<Error>)
      modifies this`sessions
      ensures sessions == if fate.NotApplied? then old(sessions) else old(sessions) - {token}
      ensures failure == if fate.Applied? then None else Some(StorageFailed)
    {
      if !fate.NotApplied? {
        sessions := sessions - {token};
      }
      failure := if fate.Applied? then None else Some(StorageFailed);
    }
  }

  /** How an authentication goes: no token, found in the cache, refused by the store, read but past caching, or read and cached. */
  datatype Path = NoToken | FromCache | RefusedByStore | NotCached | FromStore

  /** Whether Redis and the database answer this authentication. */
  datatype Answers = Answers(cacheUp: bool, readOk: bool, putUp: bool)

  /** What everybody else does before each later step of an authentication. */
  datatype Gaps = Gaps(beforeRead: seq<Action>, beforeReckon: seq<Action>, beforeSet: seq<Action>, beforeCheck: seq<Action>)

  predicate OthersIn(gaps: Gaps, c: nat) {
    Others(gaps.beforeRead, c) && Others(gaps.beforeReckon, c) && Others(gaps.beforeSet, c) && Others(gaps.beforeCheck, c)
  }

  /** The steps of PutSessionUser. */
  function PutTrace(path: Path, c: nat, ans: Answers, gaps: Gaps): seq<Action> {
    var reckon := gaps.beforeReckon + [Reckon(c)];
    if path.FromStore? then reckon + (gaps.beforeSet + [CacheSet(c, ans.putUp)]) else reckon
  }

  function StoreTrace(path: Path, c: nat, ans: Answers, gaps: Gaps): seq<Action> {
    var read := gaps.beforeRead + [StoreGet(c, ans.readOk)];
    if path.RefusedByStore? then read else read + PutTrace(path, c, ans, gaps)
  }

  function LookTrace(path: Path, c: nat, token: Token, ans: Answers, gaps: Gaps): seq<Action> {
    var look := [CacheGet(token, ans.cacheUp)];
    if path.NoToken? || path.FromCache? then look else look + StoreTrace(path, c, ans, gaps)
  }

  function AuthTrace(path: Path, c: nat, token: Token, ans: Answers, gaps: Gaps): seq<Action> {
    var look := LookTrace(path, c, token, ans, gaps);
    if path.NoToken? || path.RefusedByStore? then look else look + (gaps.beforeCheck + [Check(c)])
  }

  /** A running session of an active account, or a refusal. */
  function Judged(session: Session, user: Account, now: Instant): Result<(Session, Account), Error> {
    if now < session.expiresAt && user.isActive then Ok((session, user)) else Err(SessionInvalid)
  }

  /** The lookup in hand is of the session and the user that were read. */
  predicate SameLookup(next: Call, r: Call)
    requires r.ReadThrough? || r.Caching?
  {
    next.Have? && next.token == r.token && next.found.session == r.session && next.found.user == r.user
  }

  /** What asking the store comes to: its failure, a refusal, or the row as it held it. */
  predicate FetchedFrom(read: State, token: Token, readOk: bool, path: Path, next: Call) {
    if !readOk then path == RefusedByStore && next.Answered? && next.answer == Err(StorageFailed)
    else if token !in read.sessions || read.sessions[token].userId !in read.users then
      path == RefusedByStore && next.Answered? && next.answer == Err(SessionInvalid)
    else
      !path.RefusedByStore? && next.Have? && next.found.session == read.sessions[token]
      && next.found.user == read.users[read.sessions[token].userId]
  }

  class UserService {
    const sessionTtl: int
    const cache: SessionCache
    const store: SessionStore
    var clock: Instant
    /** How far each request in flight has come. */
    var calls: seq<Call>

    function Snapshot(): State
      reads this, cache, store
    {
      State(clock, cache.ttl, sessionTtl, store.sessions, store.users, store.issued, cache.entries, calls)
    }

    constructor (clock: Instant, cacheTtl: int, sessionTtl: int, users: map<Id, Account>)
      ensures fresh(cache) && fresh(store) && Snapshot() == Start(clock, cacheTtl, sessionTtl, users)
    {
      this.sessionTtl := sessionTtl;
      this.cache := new SessionCache(cacheTtl);
      this.store := new SessionStore(users);
      this.clock := clock;
      this.calls := [];
    }

    /** Everybody else's steps. */
    method Interfere(acts: seq<Action>)
      modifies this, cache, store
      ensures Snapshot() == Run(old(Snapshot()), acts)
    {
      RunForward(Snapshot(), acts);
      var s := Run(Snapshot(), acts);
      clock, calls := s.clock, s.calls;
      cache.entries := s.cache;
      store.sessions, store.users, store.issued := s.sessions, s.users, s.issued;
    }

    /** Login once the credentials have been accepted: the clock is read, and some time later the row is inserted. */
    method StartSession(userId: Id, token: Token, fate: Fate, others: seq<Action>) returns (failure: Option<Error>)
      modifies this, cache, store
      ensures Snapshot() == Run(old(Snapshot()), others + [CreateSession(userId, token, old(clock), fate)])
      ensures failure.None? ==> token in store.sessions && store.sessions[token] == Session(userId, old(clock) + sessionTtl)
      ensures failure.None? <==> fate.Applied? && token != NO_TOKEN && userId in store.users
                                 && token !in Run(old(Snapshot()), others).issued
    {
      var asOf := clock;
      RunThen(Snapshot(), others, CreateSession(userId, token, asOf, fate));
      RunForward(Snapshot(), others);
      Interfere(others);
      var accepted := token != NO_TOKEN && token !in store.issued && userId in store.users;
      if accepted && !fate.NotApplied? {
        store.sessions := store.sessions[token := Session(userId, asOf + sessionTtl)];
        store.issued := store.issued + {token};
      }
      failure := if accepted && fate.Applied? then None else Some(StorageFailed);
    }

    method LookInCache(token: Token, up: bool) returns (next: Call)
      modifies this`calls
      ensures Snapshot() == Step(old(Snapshot()), CacheGet(token, up))
      ensures calls == old(calls) + [next] && next == BeginAuthenticate(old(Snapshot()), token, up)
    {
      if token == NO_TOKEN {
        next := Answered(token, Err(SessionInvalid), clock);
      } else {
        var hit := cache.GetSessionUser(token, clock, up);
        match hit
        case None => next := Missed(token);
        case Some(e) => next := Have(token, Found(e.session, e.user, e.readAt, e.putAt, clock));
      }
      calls := calls + [next];
    }

    method AskStore(c: nat, token: Token, readOk: bool, others: seq<Action>) returns (next: Call)
      requires c < |calls| && calls[c] == Missed(token) && Others(others, c)
      modifies this, cache, store
      ensures Snapshot() == Run(old(Snapshot()), others + [StoreGet(c, readOk)])
      ensures c < |calls| && calls[c] == next
      ensures next == ReadStore(Run(old(Snapshot()), others), token, readOk)
    {
      OthersRun(Snapshot(), others, c);
      RunThen(Snapshot(), others, StoreGet(c, readOk));
      Interfere(others);
      var row := store.GetSessionUser(token, readOk);
      if row.Err? {
        next := Answered(token, Err(row.error), clock);
      } else {
        next := ReadThrough(token, row.value.0, row.value.1, clock);
      }
      assert next == ReadStore(Snapshot(), token, readOk);
      calls := calls[c := next];
    }

    method ReckonLifetime(c: nat, r: Call, others: seq<Action>) returns (next: Call)
      requires c < |calls| && calls[c] == r && r.ReadThrough? && Others(others, c)
      modifies this, cache, store
      ensures Snapshot() == Run(old(Snapshot()), others + [Reckon(c)])
      ensures c < |calls| && calls[c] == next && (next.Have? || next.Caching?) && next.token == r.token
      ensures if next.Have? then SameLookup(next, r) else next.session == r.session && next.user == r.user
    {
      OthersRun(Snapshot(), others, c);
      RunThen(Snapshot(), others, Reckon(c));
      Interfere(others);
      var life := cache.Lifetime(r.session, clock);
      next := if life <= 0 then Have(r.token, Found(r.session, r.user, r.readAt, clock, clock))
              else Caching(r.token, r.session, r.user, r.readAt, life, clock);
      calls := calls[c := next];
    }

    method SetInCache(c: nat, r: Call, up: bool, others: seq<Action>) returns (next: Call)
      requires c < |calls| && calls[c] == r && r.Caching? && Others(others, c)
      modifies this, cache, store
      ensures Snapshot() == Run(old(Snapshot()), others + [CacheSet(c, up)])
      ensures c < |calls| && calls[c] == next && SameLookup(next, r)
    {
      OthersRun(Snapshot(), others, c);
      RunThen(Snapshot(), others, CacheSet(c, up));
      Interfere(others);
      cache.Set(r, clock, up);
      next := Have(r.token, Found(r.session, r.user, r.readAt, clock, clock));
      calls := calls[c := next];
    }

    /** PutSessionUser: what was read is remembered for next time, if it has time left to live. */
    method PutSessionUser(c: nat, r: Call, ans: Answers, gaps: Gaps) returns (next: Call, ghost path: Path)
      requires c < |calls| && calls[c] == r && r.ReadThrough? && OthersIn(gaps, c)
      modifies this, cache, store
      ensures path == NotCached || path == FromStore
      ensures Snapshot() == Run(old(Snapshot()), PutTrace(path, c, ans, gaps))
      ensures c < |calls| && calls[c] == next && SameLookup(next, r)
    {
      RunConcat(Snapshot(), gaps.beforeReckon + [Reckon(c)], gaps.beforeSet + [CacheSet(c, ans.putUp)]);
      next := ReckonLifetime(c, r, gaps.beforeReckon);
      path := NotCached;
      if next.Caching? {
        next := SetInCache(c, next, ans.putUp, gaps.beforeSet);
        path := FromStore;
      }
    }

    /** A lookup from either place is good only for a session still running and an active account. */
    method CheckFound(c: nat, token: Token, found: Found, others: seq<Action>) returns (answer: Result<Found, Error>)
      requires c < |calls| && calls[c] == Have(token, found) && Others(others, c)
      modifies this, cache, store
      ensures Snapshot() == Run(old(Snapshot()), others + [Check(c)])
      ensures c < |calls| && calls[c] == Answered(token, answer, clock) && answer == Verdict(found, clock)
    {
      OthersRun(Snapshot(), others, c);
      RunThen(Snapshot(), others, Check(c));
      Interfere(others);
      if !found.session.IsActive(clock) {
        answer := Err(SessionInvalid);
      } else if !found.user.isActive {
        answer := Err(SessionInvalid);
      } else {
        answer := Ok(found);
      }
      calls := calls[c := Answered(token, answer, clock)];
    }

    /** After a miss: the row as the store holds it, remembered for next time unless it was refused. */
    method ReadThroughStore(c: nat, token: Token, ans: Answers, gaps: Gaps) returns (next: Call, ghost path: Path)
      requires c < |calls| && calls[c] == Missed(token) && OthersIn(gaps, c)
      modifies this, cache, store
      ensures path == RefusedByStore || path == NotCached || path == FromStore
      ensures Snapshot() == Run(old(Snapshot()), StoreTrace(path, c, ans, gaps))
      ensures c < |calls| && calls[c] == next && next.token == token
      ensures FetchedFrom(Run(old(Snapshot()), gaps.beforeRead), token, ans.readOk, path, next)
    {
      RunConcat(Snapshot(), gaps.beforeRead + [StoreGet(c, ans.readOk)], PutTrace(NotCached, c, ans, gaps));
      RunConcat(Snapshot(), gaps.beforeRead + [StoreGet(c, ans.readOk)], PutTrace(FromStore, c, ans, gaps));
      next := AskStore(c, token, ans.readOk, gaps.beforeRead);
      path := RefusedByStore;
      if !next.Answered? {
        next, path := PutSessionUser(c, next, ans, gaps);
      }
    }

    /** The lookup, cache first and then the store. */
    method Find(token: Token, ans: Answers, gaps: Gaps) returns (next: Call, ghost path: Path)
      requires OthersIn(gaps, |calls|)
      modifies this, cache, store
      ensures Snapshot() == Run(old(Snapshot()), LookTrace(path, old(|calls|), token, ans, gaps))
      ensures old(|calls|) < |calls| && calls[old(|calls|)] == next && next.token == token
      ensures var looked := old(Snapshot());
              if token == NO_TOKEN then path == NoToken && next.Answered? && next.answer == Err(SessionInvalid)
              else if ans.cacheUp && token in looked.cache && looked.clock < looked.cache[token].deadline then
                path == FromCache && next.Have?
                && next.found.session == looked.cache[token].session && next.found.user == looked.cache[token].user
              else
                !path.NoToken? && !path.FromCache?
                && FetchedFrom(Run(Step(looked, CacheGet(token, ans.cacheUp)), gaps.beforeRead), token, ans.readOk, path, next)
    {
      ghost var start := Snapshot();
      var c := |calls|;
      RunOne(start, CacheGet(token, ans.cacheUp));
      next := LookInCache(token, ans.cacheUp);
      path := if next.Answered? then NoToken else FromCache;
      if next.Missed? {
        next, path := ReadThroughStore(c, token, ans, gaps);
        RunConcat(start, [CacheGet(token, ans.cacheUp)], StoreTrace(path, c, ans, gaps));
      }
    }

    /** The user behind a session token: cache first, then the store, and the same checks after either. */
    method Authenticate(token: Token, ans: Answers, gaps: Gaps)
      returns (answer: Result<Found, Error>, ghost path: Path)
      requires OthersIn(gaps, |calls|)
      modifies this, cache, store
      ensures Snapshot() == Run(old(Snapshot()), AuthTrace(path, old(|calls|), token, ans, gaps))
      ensures old(|calls|) < |calls| && calls[old(|calls|)].Answered? && calls[old(|calls|)].answer == answer
      ensures answer.Ok? ==> clock < answer.value.session.expiresAt && answer.value.user.isActive
      // What is answered: the cache's entry if it has one, or else the row as the store held it when it was read, judged by
      // the clock as it is when the answer is given.
      ensures var looked := old(Snapshot());
              var read := Run(Step(looked, CacheGet(token, ans.cacheUp)), gaps.beforeRead);
              Seen(answer)
              == if token == NO_TOKEN then Err(SessionInvalid)
                 else if ans.cacheUp && token in looked.cache && looked.clock < looked.cache[token].deadline then
                   Judged(looked.cache[token].session, looked.cache[token].user, clock)
                 else if !ans.readOk then Err(StorageFailed)
                 else if token !in read.sessions || read.sessions[token].userId !in read.users then Err(SessionInvalid)
                 else Judged(read.sessions[token], read.users[read.sessions[token].userId], clock)
    {
      ghost var start := Snapshot();
      var c := |calls|;
      var next;
      next, path := Find(token, ans, gaps);
      if next.Answered? {
        return next.answer, path;
      }
      RunConcat(start, LookTrace(path, c, token, ans, gaps), gaps.beforeCheck + [Check(c)]);
      answer := CheckFound(c, next.token, next.found, gaps.beforeCheck);
    }

    /** Evicts the entry and only then deletes the row; a token with neither is logged out all the same. */
    method Logout(token: Token, up: bool, fate: Fate, others: seq<Action>) returns (failure: Option<Error>, ghost trace: seq<Action>)
      requires Others(others, |calls|)
      modifies this, cache, store
      ensures Snapshot() == Run(old(Snapshot()), trace)
      ensures trace == [Evict(token, up)] || trace == [Evict(token, up)] + (others + [DeleteRow(old(|calls|), fate)])
      ensures token == NO_TOKEN ==> failure == None
      ensures token != NO_TOKEN ==> failure == if fate.Applied? then None else Some(StorageFailed)
      ensures token != NO_TOKEN && !fate.NotApplied? ==> token !in store.sessions
      ensures token == NO_TOKEN ==> store.sessions == old(store.sessions) && cache.entries == old(cache.entries)
      // The entry goes before anybody else's next step, the row after; no other row does.
      ensures token != NO_TOKEN ==>
                var evicted := Step(old(Snapshot()), Evict(token, up));
                && evicted.cache == (if up then old(cache.entries) - {token} else old(cache.entries))
                && evicted.sessions == old(store.sessions)
                && cache.entries == Run(evicted, others).cache
                && store.sessions == (if fate.NotApplied? then Run(evicted, others).sessions
                                      else Run(evicted, others).sessions - {token})
    {
      ghost var start := Snapshot();
      var c := |calls|;
      trace := [Evict(token, up)];
      RunOne(start, Evict(token, up));
      if token == NO_TOKEN {
        calls := calls + [LoggedOut(token, None)];
        return None, trace;
      }
      cache.DeleteSession(token, up);
      calls := calls + [Evicted(token)];
      ghost var evicted := Snapshot();
      OthersRun(evicted, others, c);
      RunThen(evicted, others, DeleteRow(c, fate));
      RunConcat(start, trace, others + [DeleteRow(c, fate)]);
      Interfere(others);
      failure := store.DeleteSession(token, fate);
      calls := calls[c := LoggedOut(token, failure)];
      trace := trace + (others + [DeleteRow(c, fate)]);
    }
  }

  const NO_GAPS: Gaps := Gaps([], [], [], [])

  /** A call that has its answer keeps it; a lookup that was found needs only the check. */
  lemma NothingLeft(s: State, c: nat, readOk: bool, putUp: bool)
    requires c < |s.calls| && (s.calls[c].Answered? || s.calls[c].Have?)
    ensures Step(s, StoreGet(c, readOk)) == s && Step(s, Reckon(c)) == s && Step(s, CacheSet(c, putUp)) == s
    ensures s.calls[c].Answered? ==> Step(s, Check(c)) == s
  {
  }

  function Looked(s: State, token: Token, ans: Answers): State {
    Step(s, CacheGet(token, ans.cacheUp))
  }

  function ReadOff(s: State, token: Token, ans: Answers): State {
    Step(Looked(s, token, ans), StoreGet(|s.calls|, ans.readOk))
  }

  function Reckoned(s: State, token: Token, ans: Answers): State {
    Step(ReadOff(s, token, ans), Reckon(|s.calls|))
  }

  function Cached(s: State, token: Token, ans: Answers): State {
    Step(Reckoned(s, token, ans), CacheSet(|s.calls|, ans.putUp))
  }

  lemma WholeSteps(s: State, token: Token, ans: Answers)
    ensures After(s, Transparency.Authenticate(token, ans.cacheUp, ans.readOk, ans.putUp))
         == Step(Cached(s, token, ans), Check(|s.calls|))
  {
    var c := |s.calls|;
    RunConcat(s, [CacheGet(token, ans.cacheUp), StoreGet(c, ans.readOk)], [Reckon(c), CacheSet(c, ans.putUp), Check(c)]);
    RunTwo(s, CacheGet(token, ans.cacheUp), StoreGet(c, ans.readOk));
    RunThree(ReadOff(s, token, ans), Reckon(c), CacheSet(c, ans.putUp), Check(c));
  }

  lemma AloneTrace(path: Path, c: nat, token: Token, ans: Answers)
    ensures var look, get, put, check := CacheGet(token, ans.cacheUp), StoreGet(c, ans.readOk), CacheSet(c, ans.putUp), Check(c);
            AuthTrace(path, c, token, ans, NO_GAPS)
            == match path
               case NoToken => [look]
               case FromCache => [look, check]
               case RefusedByStore => [look, get]
               case NotCached => [look, get] + [Reckon(c), check]
               case FromStore => [look, get] + [Reckon(c), put, check]
  {
  }

  /** The steps of each path with nobody in between. */
  lemma AloneSteps(s: State, path: Path, token: Token, ans: Answers)
    ensures var c := |s.calls|;
            Run(s, AuthTrace(path, c, token, ans, NO_GAPS))
            == match path
               case NoToken => Looked(s, token, ans)
               case FromCache => Step(Looked(s, token, ans), Check(c))
               case RefusedByStore => ReadOff(s, token, ans)
               case NotCached => Step(Reckoned(s, token, ans), Check(c))
               case FromStore => Step(Cached(s, token, ans), Check(c))
  {
    var c := |s.calls|;
    var look, get, put, check := CacheGet(token, ans.cacheUp), StoreGet(c, ans.readOk), CacheSet(c, ans.putUp), Check(c);
    AloneTrace(path, c, token, ans);
    match path
    case NoToken => RunOne(s, look);
    case FromCache => RunTwo(s, look, check);
    case RefusedByStore => RunTwo(s, look, get);
    case NotCached =>
      RunTwo(s, look, get);
      RunConcat(s, [look, get], [Reckon(c), check]);
      RunTwo(ReadOff(s, token, ans), Reckon(c), check);
    case FromStore =>
      RunTwo(s, look, get);
      RunConcat(s, [look, get], [Reckon(c), put, check]);
      RunThree(ReadOff(s, token, ans), Reckon(c), put, check);
  }

  /** The check answers what was found and nothing else. */
  lemma OnlyFoundIsAnswered(s: State, c: nat)
    requires c < |Step(s, Check(c)).calls| && Step(s, Check(c)).calls[c].Answered?
    ensures c < |s.calls| && (s.calls[c].Have? || s.calls[c].Answered?)
  {
  }

  /** Left alone, whichever path it takes to its answer, an authentication ends as its five steps in a row do. */
  lemma AloneIsWhole(s: State, path: Path, token: Token, ans: Answers)
    requires var after := Run(s, AuthTrace(path, |s.calls|, token, ans, NO_GAPS));
             |s.calls| < |after.calls| && after.calls[|s.calls|].Answered?
    ensures Run(s, AuthTrace(path, |s.calls|, token, ans, NO_GAPS))
         == After(s, Transparency.Authenticate(token, ans.cacheUp, ans.readOk, ans.putUp))
  {
    var c := |s.calls|;
    AloneSteps(s, path, token, ans);
    WholeSteps(s, token, ans);
    match path
    case NoToken => NothingLeft(Looked(s, token, ans), c, ans.readOk, ans.putUp);
    case FromCache =>
      OnlyFoundIsAnswered(Looked(s, token, ans), c);
      NothingLeft(Looked(s, token, ans), c, ans.readOk, ans.putUp);
    case RefusedByStore => NothingLeft(ReadOff(s, token, ans), c, ans.readOk, ans.putUp);
    case NotCached =>
      OnlyFoundIsAnswered(Reckoned(s, token, ans), c);
      NothingLeft(Reckoned(s, token, ans), c, ans.readOk, ans.putUp);
    case FromStore =>
  }

  /**
   Left alone and with the cache in agreement with the store, an authentication answers what the
   store alone would, whichever path it takes.
   */
  lemma AloneIsCacheless(s: State, path: Path, token: Token, ans: Answers)
    requires Fine(s)
    ensures var after := Run(s, AuthTrace(path, |s.calls|, token, ans, NO_GAPS));
            |s.calls| < |after.calls| && after.calls[|s.calls|].Answered? ==>
              Seen(after.calls[|s.calls|].answer)
              == if AsksStore(s, token, ans.cacheUp) && !ans.readOk then Err(StorageFailed) else Cacheless(s, token)
  {
    var after := Run(s, AuthTrace(path, |s.calls|, token, ans, NO_GAPS));
    if |s.calls| < |after.calls| && after.calls[|s.calls|].Answered? {
      AloneIsWhole(s, path, token, ans);
      AuthenticateSteps(s, token, ans.cacheUp, ans.readOk, ans.putUp);
    }
  }
}
