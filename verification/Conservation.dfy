/** Holds taken, cancellations and the row that holds a slot now, counted along a run. */
module Conservation {
  import opened Calendar
  import opened Courts
  import opened Bookings
  import opened Protocol
  import opened Invariant

  predicate ForSlot(b: Booking, courtId: Id, startsAt: Instant) {
    b.courtId == courtId && b.startsAt == startsAt
  }

  /** A HoldSlot insert for the slot reaches the database. */
  predicate Attempts(w: World, a: Action, courtId: Id, startsAt: Instant) {
    a.Hold? && !a.fate.NotApplied? && a.call < |w.calls| && w.calls[a.call].BookReady?
    && w.calls[a.call].input.courtId == courtId && w.calls[a.call].input.startsAt == startsAt
  }

  /** ... and is accepted. */
  predicate Wins(w: World, a: Action, courtId: Id, startsAt: Instant) {
    Attempts(w, a, courtId, startsAt) && !SlotHeld(w.rows, courtId, startsAt)
  }

  /** How many holds of the slot the run takes. */
  function Winners(site: Site, w: World, acts: seq<Action>, courtId: Id, startsAt: Instant): nat {
    if acts == [] then 0
    else
      var init := acts[..|acts| - 1];
      Winners(site, w, init, courtId, startsAt)
      + (if Wins(Run(site, w, init), acts[|acts| - 1], courtId, startsAt) then 1 else 0)
  }

  function CountFor(rows: seq<Booking>, courtId: Id, startsAt: Instant): nat {
    if rows == [] then 0
    else CountFor(rows[..|rows| - 1], courtId, startsAt)
         + (if ForSlot(rows[|rows| - 1], courtId, startsAt) then 1 else 0)
  }

  /** How many bookings of the slot have been cancelled. */
  function CancelledFor(rows: seq<Booking>, courtId: Id, startsAt: Instant): nat {
    if rows == [] then 0
    else CancelledFor(rows[..|rows| - 1], courtId, startsAt)
         + (if ForSlot(rows[|rows| - 1], courtId, startsAt) && !rows[|rows| - 1].StillHolding() then 1 else 0)
  }

  lemma {:induction false} CountForKept(rows: seq<Booking>, rows': seq<Booking>, courtId: Id, startsAt: Instant)
    requires |rows| == |rows'|
    requires forall b :: 0 <= b < |rows| ==> rows'[b].courtId == rows[b].courtId && rows'[b].startsAt == rows[b].startsAt
    ensures CountFor(rows', courtId, startsAt) == CountFor(rows, courtId, startsAt)
  {
    if rows != [] {
      CountForKept(rows[..|rows| - 1], rows'[..|rows| - 1], courtId, startsAt);
    }
  }

  lemma {:induction false} CancelledForGrows(rows: seq<Booking>, rows': seq<Booking>, courtId: Id, startsAt: Instant)
    requires RowsGrow(rows, rows')
    ensures CancelledFor(rows, courtId, startsAt) <= CancelledFor(rows', courtId, startsAt)
    decreases |rows'|
  {
    if |rows| < |rows'| {
      CancelledForGrows(rows, rows'[..|rows'| - 1], courtId, startsAt);
    } else if rows != [] {
      assert RowGrows(rows[|rows| - 1], rows'[|rows| - 1]);
      CancelledForGrows(rows[..|rows| - 1], rows'[..|rows| - 1], courtId, startsAt);
    }
  }

  /** Of the rows for a slot at most one is uncancelled, and then the slot is held. */
  lemma {:induction false} OneRowHolds(rows: seq<Booking>, courtId: Id, startsAt: Instant)
    requires SlotsUnique(rows)
    ensures CountFor(rows, courtId, startsAt)
         == CancelledFor(rows, courtId, startsAt) + (if SlotHeld(rows, courtId, startsAt) then 1 else 0)
  {
    if rows != [] {
      var init, last := rows[..|rows| - 1], rows[|rows| - 1];
      assert SlotsUnique(init);
      OneRowHolds(init, courtId, startsAt);
      if SlotHeld(init, courtId, startsAt) {
        var i :| 0 <= i < |init| && Occupies(init[i], courtId, startsAt);
        assert Occupies(rows[i], courtId, startsAt);
        assert !Occupies(last, rows[i].courtId, rows[i].startsAt);
      } else {
        forall i | 0 <= i < |init| ensures !Occupies(rows[i], courtId, startsAt) {
          assert rows[i] == init[i];
        }
      }
    }
  }

  lemma WhatInserts(site: Site, w: World, a: Action, courtId: Id, startsAt: Instant)
    ensures var w' := Step(site, w, a);
            || |w'.rows| == |w.rows|
            || (|w'.rows| == |w.rows| + 1 && w'.rows[..|w.rows|] == w.rows
                && (ForSlot(w'.rows[|w.rows|], courtId, startsAt) <==> Wins(w, a, courtId, startsAt)))
    ensures Wins(w, a, courtId, startsAt) ==> |Step(site, w, a).rows| == |w.rows| + 1
  {
  }

  /** A step adds a row for the slot exactly when it wins it. */
  lemma StepCounts(site: Site, w: World, a: Action, courtId: Id, startsAt: Instant)
    requires Inv(site, w)
    ensures CountFor(Step(site, w, a).rows, courtId, startsAt)
         == CountFor(w.rows, courtId, startsAt) + (if Wins(w, a, courtId, startsAt) then 1 else 0)
  {
    var w' := Step(site, w, a);
    WhatInserts(site, w, a, courtId, startsAt);
    if |w'.rows| == |w.rows| {
      forall b | 0 <= b < |w.rows|
        ensures w'.rows[b].courtId == w.rows[b].courtId && w'.rows[b].startsAt == w.rows[b].startsAt
      {
        StepForward(site, w, a, b);
      }
      CountForKept(w.rows, w'.rows, courtId, startsAt);
    }
  }

  lemma {:induction false} RunCounts(site: Site, w: World, acts: seq<Action>, courtId: Id, startsAt: Instant)
    requires Inv(site, w)
    ensures CountFor(Run(site, w, acts).rows, courtId, startsAt)
         == CountFor(w.rows, courtId, startsAt) + Winners(site, w, acts, courtId, startsAt)
  {
    if acts != [] {
      var init := acts[..|acts| - 1];
      RunCounts(site, w, init, courtId, startsAt);
      RunKeeps(site, w, init);
      StepCounts(site, Run(site, w, init), acts[|acts| - 1], courtId, startsAt);
    }
  }

  /** Over every run, successful holds of a slot equal its cancellations plus the row that holds it now. */
  lemma HoldsConserved(site: Site, clock: Instant, acts: seq<Action>, courtId: Id, startsAt: Instant)
    requires SiteSound(site)
    ensures var rows := Run(site, Init(clock), acts).rows;
            Winners(site, Init(clock), acts, courtId, startsAt)
            == CancelledFor(rows, courtId, startsAt) + (if SlotHeld(rows, courtId, startsAt) then 1 else 0)
  {
    InitSound(site, clock);
    RunCounts(site, Init(clock), acts, courtId, startsAt);
    ReachableSound(site, clock, acts);
    OneRowHolds(Run(site, Init(clock), acts).rows, courtId, startsAt);
  }

  /** Some insert for the slot reaches the database during the run. */
  ghost predicate Contested(site: Site, w: World, acts: seq<Action>, courtId: Id, startsAt: Instant) {
    acts != []
    && var init := acts[..|acts| - 1];
       Contested(site, w, init, courtId, startsAt) || Attempts(Run(site, w, init), acts[|acts| - 1], courtId, startsAt)
  }

  /** Any number of players racing for a free slot, in any order: exactly one wins until it is released. */
  lemma {:induction false} ExactlyOneWinner(site: Site, w: World, acts: seq<Action>, courtId: Id, startsAt: Instant)
    requires Inv(site, w) && !SlotHeld(w.rows, courtId, startsAt)
    requires CancelledFor(Run(site, w, acts).rows, courtId, startsAt) == CancelledFor(w.rows, courtId, startsAt)
    ensures Winners(site, w, acts, courtId, startsAt) == if Contested(site, w, acts, courtId, startsAt) then 1 else 0
  {
    if acts != [] {
      var init := acts[..|acts| - 1];
      var before, after := Run(site, w, init), Run(site, w, acts);
      RunKeeps(site, w, init);
      RunKeeps(site, w, acts);
      StepKeeps(site, before, acts[|acts| - 1]);
      CancelledForGrows(w.rows, before.rows, courtId, startsAt);
      CancelledForGrows(before.rows, after.rows, courtId, startsAt);
      ExactlyOneWinner(site, w, init, courtId, startsAt);
      RunCounts(site, w, init, courtId, startsAt);
      OneRowHolds(w.rows, courtId, startsAt);
      OneRowHolds(before.rows, courtId, startsAt);
    }
  }
}
