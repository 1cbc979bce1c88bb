/** How long an unpaid hold can keep its slot when the sweeper keeps running. */
module Release {
  import opened Calendar
  import opened Bookings
  import opened Protocol
  import opened Invariant

  /** The latest time any sweep that took effect was asked to sweep up to, or the start. */
  function LastSweep(site: Site, start: Instant, acts: seq<Action>): Instant {
    if acts == [] then start
    else
      var init, a := acts[..|acts| - 1], acts[|acts| - 1];
      var last := LastSweep(site, start, init);
      if a.SweepPass? && !a.fate.NotApplied? && last < a.asOf <= Run(site, Init(start), init).clock then a.asOf else last
  }

  function Max(a: Instant, b: Instant): Instant {
    if a < b then b else a
  }

  /** What the sweeps so far leave behind: no hold that had run out by the last one. */
  ghost predicate SweptUpTo(w: World, last: Instant) {
    forall b :: 0 <= b < |w.rows| && w.rows[b].StillHolding() && w.rows[b].status == PendingPayment ==>
      w.rows[b].holdExpiresAt.Some? && last <= Max(w.rows[b].holdExpiresAt.value, w.rows[b].createdAt)
  }

  lemma {:induction false} LastSweepInThePast(site: Site, start: Instant, acts: seq<Action>)
    requires SiteSound(site)
    ensures start <= LastSweep(site, start, acts) <= Run(site, Init(start), acts).clock
  {
    if acts != [] {
      var init := acts[..|acts| - 1];
      LastSweepInThePast(site, start, init);
      ReachableSound(site, start, init);
      StepKeeps(site, Run(site, Init(start), init), acts[|acts| - 1]);
    }
  }

  /** A row that is pending and uncancelled after a step was so before it, or is new at this very instant. */
  lemma WhatIsPending(site: Site, w: World, a: Action, b: nat)
    requires b < |Step(site, w, a).rows|
    requires var row := Step(site, w, a).rows[b]; row.StillHolding() && row.status == PendingPayment
    ensures var row := Step(site, w, a).rows[b];
            || (b < |w.rows| && w.rows[b].StillHolding() && w.rows[b].status == PendingPayment
                && w.rows[b].holdExpiresAt == row.holdExpiresAt && w.rows[b].createdAt == row.createdAt)
            || (row.createdAt == w.clock && row.holdExpiresAt.Some? && !a.SweepPass?)
    ensures a.SweepPass? && !a.fate.NotApplied? && a.asOf <= w.clock ==> !SweepMatches(Step(site, w, a).rows[b], a.asOf)
  {
  }

  lemma {:induction false} SweptUpToLast(site: Site, start: Instant, acts: seq<Action>)
    requires SiteSound(site)
    ensures SweptUpTo(Run(site, Init(start), acts), LastSweep(site, start, acts))
  {
    if acts != [] {
      var init, a := acts[..|acts| - 1], acts[|acts| - 1];
      var w, w' := Run(site, Init(start), init), Run(site, Init(start), acts);
      SweptUpToLast(site, start, init);
      LastSweepInThePast(site, start, init);
      var last := LastSweep(site, start, acts);
      forall b | 0 <= b < |w'.rows| && w'.rows[b].StillHolding() && w'.rows[b].status == PendingPayment
        ensures w'.rows[b].holdExpiresAt.Some? && last <= Max(w'.rows[b].holdExpiresAt.value, w'.rows[b].createdAt)
      {
        WhatIsPending(site, w, a, b);
      }
    }
  }

  /** The sweeper keeps up: the clock never runs more than the interval past the last sweep. */
  ghost predicate SweptEvery(site: Site, start: Instant, acts: seq<Action>, interval: int) {
    forall k :: 0 <= k <= |acts| ==>
      Run(site, Init(start), acts[..k]).clock <= LastSweep(site, start, acts[..k]) + interval
  }

  /** While the sweeper keeps up, no unpaid hold keeps its slot longer than the interval past its expiry or its insertion. */
  lemma ReleasedInTime(site: Site, start: Instant, acts: seq<Action>, interval: int, k: nat, b: nat)
    requires SiteSound(site) && SweptEvery(site, start, acts, interval) && k <= |acts|
    requires b < |Run(site, Init(start), acts[..k]).rows|
    ensures var w := Run(site, Init(start), acts[..k]);
            w.rows[b].StillHolding() && w.rows[b].status == PendingPayment ==>
              w.rows[b].holdExpiresAt.Some?
              && w.clock <= Max(w.rows[b].holdExpiresAt.value, w.rows[b].createdAt) + interval
  {
    SweptUpToLast(site, start, acts[..k]);
  }

  /** In particular no unpaid hold is ever older than fifteen minutes and the interval. */
  lemma NoOldHolds(site: Site, start: Instant, acts: seq<Action>, interval: int, k: nat, b: nat)
    requires SiteSound(site) && SweptEvery(site, start, acts, interval) && k <= |acts|
    requires b < |Run(site, Init(start), acts[..k]).rows|
    ensures var w := Run(site, Init(start), acts[..k]);
            w.rows[b].StillHolding() && w.rows[b].status == PendingPayment ==>
              w.clock - w.rows[b].createdAt <= 15 * MINUTE + interval
  {
    ReleasedInTime(site, start, acts, interval, k, b);
    var w := Run(site, Init(start), acts[..k]);
    ReachableSound(site, start, acts[..k]);
    assert RowSound(site, w.rows[b], w.clock);
  }
}
