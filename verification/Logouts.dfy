/** When a token whose row is gone can still be used, with every step interleaved. */
module Logouts {
  import opened Calendar
  import opened Payments
  import opened Sessions
  import opened Transparency

  /** An answer that let the token in. */
  predicate LetIn(call: Call, token: Token) {
    call.Answered? && call.token == token && call.answer.Ok?
  }

  /** Some authentication begun after `s` lets the token in. */
  predicate Reuses(s: State, acts: seq<Action>, token: Token) {
    exists c :: |s.calls| <= c < |Run(s, acts).calls| && LetIn(Run(s, acts).calls[c], token)
  }

  ghost predicate CanReuse(s: State, token: Token) {
    exists acts :: Reuses(s, acts, token)
  }

  predicate Passes(session: Session, user: Account, now: Instant) {
    session.IsActive(now) && user.isActive
  }

  /** Redis still has an entry that would pass the checks. */
  predicate LiveEntry(s: State, token: Token) {
    InCache(s, token) && Passes(s.cache[token].session, s.cache[token].user, s.clock)
  }

  /** The call read the row before it went and has yet to cache it. */
  predicate AboutToCache(s: State, call: Call, token: Token) {
    ((call.ReadThrough? && s.cacheTtl > 0) || (call.Caching? && call.life > 0))
    && call.token == token && Passes(call.session, call.user, s.clock)
  }

  predicate Usable(s: State, token: Token) {
    LiveEntry(s, token) || exists c :: 0 <= c < |s.calls| && AboutToCache(s, s.calls[c], token)
  }

  /** Nothing begun as call `n` or later can have let the token in. */
  predicate BeyondUse(s: State, token: Token, n: nat) {
    && token in s.issued && token !in s.sessions && !Usable(s, token)
    && forall c :: n <= c < |s.calls| ==> NoGood(s, s.calls[c], token)
  }

  predicate NoGood(s: State, call: Call, token: Token) {
    && !((call.ReadThrough? || call.Caching?) && call.token == token)
    && !(call.Have? && call.token == token && Passes(call.found.session, call.found.user, s.clock))
    && !LetIn(call, token)
  }

  lemma StaysDead(s: State, a: Action, token: Token)
    requires token !in s.sessions && !Usable(s, token)
    ensures !LiveEntry(Step(s, a), token)
  {
    if a.CacheSet? && a.call < |s.calls| && s.calls[a.call].Caching? {
      assert !AboutToCache(s, s.calls[a.call], token);
    }
  }

  lemma StaysUncached(s: State, a: Action, token: Token, c: nat)
    requires token !in s.sessions && !Usable(s, token) && c < |Step(s, a).calls|
    ensures !AboutToCache(Step(s, a), Step(s, a).calls[c], token)
  {
    if c < |s.calls| {
      assert !AboutToCache(s, s.calls[c], token);
    }
  }

  lemma StaysUnusable(s: State, a: Action, token: Token)
    requires token in s.issued && token !in s.sessions && !Usable(s, token)
    ensures var s' := Step(s, a); token in s'.issued && token !in s'.sessions && !Usable(s', token)
  {
    StaysDead(s, a, token);
    forall c | 0 <= c < |Step(s, a).calls| ensures !AboutToCache(Step(s, a), Step(s, a).calls[c], token) {
      StaysUncached(s, a, token, c);
    }
  }

  lemma StaysBeyondUse(s: State, a: Action, token: Token, n: nat)
    requires BeyondUse(s, token, n) && token != NO_TOKEN
    ensures BeyondUse(Step(s, a), token, n)
  {
    var s' := Step(s, a);
    StaysUnusable(s, a, token);
    forall c | n <= c < |s'.calls| ensures NoGood(s', s'.calls[c], token) {
      if c < |s.calls| {
        assert NoGood(s, s.calls[c], token);
      } else {
        assert !LiveEntry(s, token);
      }
    }
  }

  lemma {:induction false} RunBeyondUse(s: State, acts: seq<Action>, token: Token, n: nat)
    requires BeyondUse(s, token, n) && token != NO_TOKEN
    ensures BeyondUse(Run(s, acts), token, n)
  {
    if acts != [] {
      RunBeyondUse(s, acts[..|acts| - 1], token, n);
      StaysBeyondUse(Run(s, acts[..|acts| - 1]), acts[|acts| - 1], token, n);
    }
  }

  lemma NeverReused(s: State, acts: seq<Action>, token: Token)
    requires BeyondUse(s, token, |s.calls|) && token != NO_TOKEN
    ensures !Reuses(s, acts, token)
  {
    RunBeyondUse(s, acts, token, |s.calls|);
    var end := Run(s, acts);
    forall c | |s.calls| <= c < |end.calls| ensures !LetIn(end.calls[c], token) {
      assert NoGood(end, end.calls[c], token);
    }
  }

  /** A live entry is found by the next authentication. */
  lemma EntryLetsIn(s: State, token: Token)
    requires token != NO_TOKEN && LiveEntry(s, token)
    ensures Reuses(s, [CacheGet(token, true), Check(|s.calls|)], token)
  {
    var n := |s.calls|;
    RunTwo(s, CacheGet(token, true), Check(n));
    assert LetIn(Run(s, [CacheGet(token, true), Check(n)]).calls[n], token);
  }

  /** A lookup about to be set in the cache makes one. */
  lemma CachingLetsIn(s: State, token: Token, c: nat)
    requires token != NO_TOKEN && c < |s.calls| && s.calls[c].Caching? && AboutToCache(s, s.calls[c], token)
    ensures Reuses(s, [CacheSet(c, true)] + [CacheGet(token, true), Check(|s.calls|)], token)
  {
    var n, put := |s.calls|, Step(s, CacheSet(c, true));
    assert LiveEntry(put, token);
    EntryLetsIn(put, token);
    RunOne(s, CacheSet(c, true));
    RunConcat(s, [CacheSet(c, true)], [CacheGet(token, true), Check(n)]);
  }

  /** And so does one whose lifetime is still to be computed. */
  lemma LookupLetsIn(s: State, token: Token, c: nat)
    requires token != NO_TOKEN && c < |s.calls| && s.calls[c].ReadThrough? && AboutToCache(s, s.calls[c], token)
    ensures Reuses(s, [Reckon(c)] + ([CacheSet(c, true)] + [CacheGet(token, true), Check(|s.calls|)]), token)
  {
    var rest := [CacheSet(c, true)] + [CacheGet(token, true), Check(|s.calls|)];
    CachingLetsIn(Step(s, Reckon(c)), token, c);
    RunOne(s, Reckon(c));
    RunConcat(s, [Reckon(c)], rest);
  }

  /**
   Once its row is gone, a token can be used again exactly when Redis still has an entry that
   passes the checks, or a request that read the row before has yet to cache it.
   */
  lemma ReusedExactlyWhenUsable(s: State, token: Token)
    requires token != NO_TOKEN && token in s.issued && token !in s.sessions
    ensures CanReuse(s, token) <==> Usable(s, token)
  {
    if LiveEntry(s, token) {
      EntryLetsIn(s, token);
    } else if Usable(s, token) {
      var c :| 0 <= c < |s.calls| && AboutToCache(s, s.calls[c], token);
      if s.calls[c].Caching? {
        CachingLetsIn(s, token, c);
      } else {
        LookupLetsIn(s, token, c);
      }
    } else {
      forall acts ensures !Reuses(s, acts, token) {
        NeverReused(s, acts, token);
      }
    }
  }

  /** The row goes: what could be used at that moment still can, and nothing else. */
  lemma DeletionLeavesUsable(s: State, c: nat, fate: Fate)
    requires c < |s.calls| && s.calls[c].Evicted? && !fate.NotApplied?
    ensures var after, token := Step(s, DeleteRow(c, fate)), s.calls[c].token;
            && token !in after.sessions && after.issued == s.issued
            && (Usable(after, token) <==> Usable(s, token))
  {
    var after, token := Step(s, DeleteRow(c, fate)), s.calls[c].token;
    assert forall d :: 0 <= d < |s.calls| ==> AboutToCache(after, after.calls[d], token) == AboutToCache(s, s.calls[d], token);
    assert LiveEntry(after, token) == LiveEntry(s, token);
  }

  lemma {:induction false} IssuedForGood(s: State, acts: seq<Action>)
    ensures s.issued <= Run(s, acts).issued
  {
    if acts != [] {
      IssuedForGood(s, acts[..|acts| - 1]);
    }
  }

  /** A logout whose two writes reach Redis or not and the store, with others in between. */
  function LogoutWith(s: State, token: Token, up: bool, others: seq<Action>, fate: Fate): seq<Action> {
    ([Evict(token, up)] + others) + [DeleteRow(|s.calls|, fate)]
  }

  /**
   After a logout whose deletion took effect, whatever became of its eviction and whatever others
   did in between, the token can be used again exactly when at the moment of the deletion Redis
   had an entry that passes the checks, or a request that had read the row had yet to cache it.
   */
  lemma LogoutHoldsExactly(s: State, token: Token, up: bool, others: seq<Action>, fate: Fate)
    requires token != NO_TOKEN && token in s.issued && !fate.NotApplied? && Others(others, |s.calls|)
    ensures CanReuse(Run(s, LogoutWith(s, token, up, others, fate)), token)
       <==> Usable(Run(s, [Evict(token, up)] + others), token)
  {
    var c, evicted := |s.calls|, Step(s, Evict(token, up));
    RunOne(s, Evict(token, up));
    RunConcat(s, [Evict(token, up)], others);
    OthersRun(evicted, others, c);
    IssuedForGood(evicted, others);
    RunThen(s, [Evict(token, up)] + others, DeleteRow(c, fate));
    DeletionLeavesUsable(Run(s, [Evict(token, up)] + others), c, fate);
    ReusedExactlyWhenUsable(Run(s, LogoutWith(s, token, up, others, fate)), token);
  }

  /** In particular, with nobody in between and the eviction taking effect: exactly when some lookup was waiting to be cached. */
  lemma UnbrokenLogoutHoldsExactly(s: State, token: Token, fate: Fate)
    requires token != NO_TOKEN && token in s.issued && !fate.NotApplied?
    ensures CanReuse(After(s, Logout(token, fate)), token)
       <==> (exists c :: 0 <= c < |s.calls| && AboutToCache(s, s.calls[c], token))
  {
    var c, evicted := |s.calls|, Step(s, Evict(token, true));
    LogoutHoldsExactly(s, token, true, [], fate);
    RunOne(s, Evict(token, true));
    assert [Evict(token, true)] + [] == [Evict(token, true)];
    assert LogoutWith(s, token, true, [], fate) == StepsOf(s, Logout(token, fate));
    assert evicted.calls == s.calls + [Evicted(token)];
    assert !LiveEntry(evicted, token) && !AboutToCache(evicted, evicted.calls[c], token);
    forall d | 0 <= d < c ensures AboutToCache(evicted, evicted.calls[d], token) == AboutToCache(s, s.calls[d], token) {
    }
  }

  /** Another request reads the row and caches it whole. */
  function CachedBetween(token: Token, c: nat): seq<Action> {
    [CacheGet(token, true), StoreGet(c, true)] + [Reckon(c), CacheSet(c, true)]
  }

  lemma CachedBetweenCaches(s: State, token: Token)
    requires token != NO_TOKEN && InStore(s, token) && !InCache(s, token) && s.cacheTtl > 0
    requires Passes(s.sessions[token], s.users[s.sessions[token].userId], s.clock)
    ensures LiveEntry(Run(s, CachedBetween(token, |s.calls|)), token)
  {
    var c := |s.calls|;
    var first, second := [CacheGet(token, true), StoreGet(c, true)], [Reckon(c), CacheSet(c, true)];
    RunTwo(s, CacheGet(token, true), StoreGet(c, true));
    RunConcat(s, first, second);
    var read := Run(s, first);
    assert read.calls[c] == ReadThrough(token, s.sessions[token], s.users[s.sessions[token].userId], s.clock);
    RunTwo(read, Reckon(c), CacheSet(c, true));
    SetLives(read, c, token);
  }

  lemma SetLives(s: State, c: nat, token: Token)
    requires c < |s.calls| && s.calls[c].ReadThrough? && AboutToCache(s, s.calls[c], token)
    ensures LiveEntry(Step(Step(s, Reckon(c)), CacheSet(c, true)), token)
  {
    assert Step(s, Reckon(c)).calls[c].Caching?;
  }

  /** A whole request between the two writes is enough: no lookup was waiting when the logout began, and the token can still be used. */
  lemma LogoutStraddled(s: State, token: Token, fate: Fate)
    requires token != NO_TOKEN && token in s.issued && InStore(s, token) && s.cacheTtl > 0 && !fate.NotApplied?
    requires Passes(s.sessions[token], s.users[s.sessions[token].userId], s.clock)
    ensures CanReuse(Run(s, LogoutWith(s, token, true, CachedBetween(token, |s.calls| + 1), fate)), token)
  {
    var evicted, others := Step(s, Evict(token, true)), CachedBetween(token, |s.calls| + 1);
    assert |evicted.calls| == |s.calls| + 1 && evicted.sessions == s.sessions && evicted.users == s.users;
    assert Others(others, |s.calls|);
    CachedBetweenCaches(evicted, token);
    RunOne(s, Evict(token, true));
    RunConcat(s, [Evict(token, true)], others);
    LogoutHoldsExactly(s, token, true, others, fate);
  }
}
