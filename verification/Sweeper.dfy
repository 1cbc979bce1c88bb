/** The sweeper: one pass at start, one on every tick, a failed pass left to the next. */
module Sweeper {
  import opened Wrappers
  import opened Calendar
  import opened Bookings
  import opened Payments
  import opened Protocol
  import opened Invariant
  import opened Release
  import opened Service

  /** One pass: what everybody else does until the tick and from then until the statement, and how the statement ends. */
  datatype Pass = Pass(beforeTick: seq<Action>, beforeSweep: seq<Action>, fate: Fate)

  /** When a pass that goes on from `acts` reads its clock. */
  function TickAt(site: Site, w: World, acts: seq<Action>, p: Pass): Instant {
    Run(site, w, acts + p.beforeTick).clock
  }

  /** One pass after the other, with everybody else in between. */
  function SweepTrace(site: Site, w: World, passes: seq<Pass>): seq<Action> {
    if passes == [] then []
    else
      var init, p := SweepTrace(site, w, passes[..|passes| - 1]), passes[|passes| - 1];
      (init + p.beforeTick) + (p.beforeSweep + [SweepPass(TickAt(site, w, init, p), p.fate)])
  }

  lemma OnePass(site: Site, w: World, acts: seq<Action>, p: Pass)
    ensures var ticked := Run(site, Run(site, w, acts), p.beforeTick);
            && TickAt(site, w, acts, p) == ticked.clock
            && Run(site, w, (acts + p.beforeTick) + (p.beforeSweep + [SweepPass(ticked.clock, p.fate)]))
               == Step(site, Run(site, ticked, p.beforeSweep), SweepPass(ticked.clock, p.fate))
  {
    var ticked := Run(site, Run(site, w, acts), p.beforeTick);
    RunConcat(site, w, acts, p.beforeTick);
    RunConcat(site, w, acts + p.beforeTick, p.beforeSweep + [SweepPass(ticked.clock, p.fate)]);
    RunThen(site, ticked, p.beforeSweep, SweepPass(ticked.clock, p.fate));
  }

  /** One pass: read the clock, send the statement, and log what it did rather than fail. */
  method SweepOnce(service: BookingService, beforeSweep: seq<Action>, fate: Fate) returns (released: Option<nat>)
    requires Inv(service.site, service.Snapshot())
    modifies service, service.repo, service.gateway
    ensures service.Snapshot() == Step(service.site, Run(service.site, old(service.Snapshot()), beforeSweep),
                                       SweepPass(old(service.clock), fate))
    ensures released == if fate.Applied? then
                          Some(CountMatches(Run(service.site, old(service.Snapshot()), beforeSweep).rows, old(service.clock)))
                        else None
  {
    var asOf := service.clock;
    RunKeeps(service.site, service.Snapshot(), beforeSweep);
    service.Interfere(beforeSweep);
    var swept := service.repo.ReleaseLapsedHolds(asOf, service.clock, fate);
    released := if swept.Ok? then Some(swept.value) else None;
  }

  /** The loop, as far as it has got: whatever its passes come to, it is a run of the step system. */
  method Watch(service: BookingService, passes: seq<Pass>)
    requires Inv(service.site, service.Snapshot())
    modifies service, service.repo, service.gateway
    ensures Inv(service.site, service.Snapshot())
    ensures service.Snapshot() == Run(service.site, old(service.Snapshot()), SweepTrace(service.site, old(service.Snapshot()), passes))
  {
    ghost var start := service.Snapshot();
    for k := 0 to |passes|
      invariant Inv(service.site, service.Snapshot())
      invariant service.Snapshot() == Run(service.site, start, SweepTrace(service.site, start, passes[..k]))
    {
      var p := passes[k];
      assert passes[..k + 1][..k] == passes[..k];
      OnePass(service.site, start, SweepTrace(service.site, start, passes[..k]), p);
      RunKeeps(service.site, service.Snapshot(), p.beforeTick);
      service.Interfere(p.beforeTick);
      ghost var ticked := service.Snapshot();
      RunKeeps(service.site, ticked, p.beforeSweep);
      StepKeeps(service.site, Run(service.site, ticked, p.beforeSweep), SweepPass(ticked.clock, p.fate));
      var _ := SweepOnce(service, p.beforeSweep, p.fate);
    }
    assert passes[..|passes|] == passes;
  }

  lemma {:induction false} LastSweepForward(site: Site, start: Instant, acts: seq<Action>, more: seq<Action>)
    ensures LastSweep(site, start, acts) <= LastSweep(site, start, acts + more)
  {
    if more == [] {
      assert acts + more == acts;
    } else {
      var init := more[..|more| - 1];
      LastSweepForward(site, start, acts, init);
      assert (acts + more)[..|acts + more| - 1] == acts + init;
    }
  }

  lemma {:induction false} PassSweeps(site: Site, start: Instant, passes: seq<Pass>)
    requires SiteSound(site) && passes != [] && !passes[|passes| - 1].fate.NotApplied?
    ensures var n := |passes| - 1;
            TickAt(site, Init(start), SweepTrace(site, Init(start), passes[..n]), passes[n])
            <= LastSweep(site, start, SweepTrace(site, Init(start), passes))
  {
    var init, p := SweepTrace(site, Init(start), passes[..|passes| - 1]), passes[|passes| - 1];
    var w, ticked := Init(start), init + p.beforeTick;
    var others := ticked + p.beforeSweep;
    var tick := TickAt(site, w, init, p);
    assert ticked + (p.beforeSweep + [SweepPass(tick, p.fate)]) == others + [SweepPass(tick, p.fate)];
    assert (others + [SweepPass(tick, p.fate)])[..|others|] == others;
    ReachableSound(site, start, ticked);
    RunConcat(site, w, ticked, p.beforeSweep);
    RunKeeps(site, Run(site, w, ticked), p.beforeSweep);
  }

  lemma {:induction false} PassesGoForward(site: Site, start: Instant, passes: seq<Pass>)
    requires passes != []
    ensures LastSweep(site, start, SweepTrace(site, Init(start), passes[..|passes| - 1]))
         <= LastSweep(site, start, SweepTrace(site, Init(start), passes))
  {
    var init, p := SweepTrace(site, Init(start), passes[..|passes| - 1]), passes[|passes| - 1];
    var tick := TickAt(site, Init(start), init, p);
    LastSweepForward(site, start, init, p.beforeTick);
    LastSweepForward(site, start, init + p.beforeTick, p.beforeSweep + [SweepPass(tick, p.fate)]);
  }

  /** After a pass that took effect the last sweep is no earlier than its tick. */
  lemma {:induction false} LoopSweeps(site: Site, start: Instant, passes: seq<Pass>, k: nat)
    requires SiteSound(site) && k < |passes| && !passes[k].fate.NotApplied?
    ensures var w := Init(start);
            TickAt(site, w, SweepTrace(site, w, passes[..k]), passes[k]) <= LastSweep(site, start, SweepTrace(site, w, passes))
    decreases |passes|
  {
    var n := |passes| - 1;
    if k < n {
      LoopSweeps(site, start, passes[..n], k);
      assert passes[..n][..k] == passes[..k];
      PassesGoForward(site, start, passes);
    } else {
      PassSweeps(site, start, passes);
    }
  }

  /**
   However its passes fail and whatever others do between them, the loop leaves no unpaid hold
   that had run out, and was there, by the tick of any pass that took effect.
   */
  lemma LoopLeavesNoneBehind(site: Site, start: Instant, passes: seq<Pass>, k: nat, b: nat)
    requires SiteSound(site) && k < |passes| && !passes[k].fate.NotApplied?
    requires b < |Run(site, Init(start), SweepTrace(site, Init(start), passes)).rows|
    ensures var row := Run(site, Init(start), SweepTrace(site, Init(start), passes)).rows[b];
            var tick := TickAt(site, Init(start), SweepTrace(site, Init(start), passes[..k]), passes[k]);
            row.StillHolding() && row.status == PendingPayment ==>
              row.holdExpiresAt.Some? && (tick <= row.holdExpiresAt.value || tick <= row.createdAt)
  {
    LoopSweeps(site, start, passes, k);
    SweptUpToLast(site, start, SweepTrace(site, Init(start), passes));
  }

  /** One sweep: the time it asks for, the database's own clock, and how the statement ends. */
  datatype Statement = Statement(asOf: Instant, at: Instant, fate: Fate)

  /** The rows after one sweep after the other with nobody in between. */
  function SweepEach(rows: seq<Booking>, sweeps: seq<Statement>): seq<Booking> {
    if sweeps == [] then rows
    else
      var before, p := SweepEach(rows, sweeps[..|sweeps| - 1]), sweeps[|sweeps| - 1];
      if p.fate.NotApplied? then before else Sweep(before, p.asOf, p.at)
  }

  /** The last sweep that took effect. */
  function LastApplied(sweeps: seq<Statement>): Option<Statement> {
    if sweeps == [] then None
    else if !sweeps[|sweeps| - 1].fate.NotApplied? then Some(sweeps[|sweeps| - 1])
    else LastApplied(sweeps[..|sweeps| - 1])
  }

  predicate InOrder(sweeps: seq<Statement>) {
    forall i, j :: 0 <= i < j < |sweeps| ==> sweeps[i].asOf <= sweeps[j].asOf
  }

  function SweepLast(rows: seq<Booking>, sweeps: seq<Statement>): seq<Booking> {
    match LastApplied(sweeps)
    case None => rows
    case Some(p) => Sweep(rows, p.asOf, p.at)
  }

  lemma {:induction false} LastAppliedAmong(sweeps: seq<Statement>)
    ensures LastApplied(sweeps).Some? ==> LastApplied(sweeps).value in sweeps
  {
    if sweeps != [] {
      LastAppliedAmong(sweeps[..|sweeps| - 1]);
    }
  }

  /** Sweeping tables that differ only in stamps leaves tables that differ only in stamps. */
  lemma SweepIgnoresStamps(rows: seq<Booking>, other: seq<Booking>, asOf: Instant, at: Instant)
    requires SameButForStamps(rows, other)
    ensures SameButForStamps(Sweep(rows, asOf, at), Sweep(other, asOf, at))
  {
  }

  /** One more sweep that takes effect, no earlier than those before it, stands for them all. */
  lemma OneMoreSweep(before: seq<Booking>, rows: seq<Booking>, sweeps: seq<Statement>, p: Statement)
    requires InOrder(sweeps + [p]) && SameButForStamps(rows, SweepLast(before, sweeps))
    ensures SameButForStamps(Sweep(rows, p.asOf, p.at), Sweep(before, p.asOf, p.at))
  {
    SweepIgnoresStamps(rows, SweepLast(before, sweeps), p.asOf, p.at);
    LastAppliedAmong(sweeps);
    if LastApplied(sweeps).Some? {
      var last := LastApplied(sweeps).value;
      var i :| 0 <= i < |sweeps| && sweeps[i] == last;
      assert (sweeps + [p])[i] == last && (sweeps + [p])[|sweeps|] == p;
      SweepComposes(before, last.asOf, last.at, p.asOf, p.at);
    }
  }

  /** Any number of sweeps in a row, some of them failing, release what the last one that took effect releases alone. */
  lemma {:induction false} SweepsAmountToTheLast(rows: seq<Booking>, sweeps: seq<Statement>)
    requires InOrder(sweeps)
    ensures SameButForStamps(SweepEach(rows, sweeps), SweepLast(rows, sweeps))
  {
    if sweeps != [] {
      var init, p := sweeps[..|sweeps| - 1], sweeps[|sweeps| - 1];
      SweepsAmountToTheLast(rows, init);
      assert sweeps == init + [p];
      if !p.fate.NotApplied? {
        OneMoreSweep(rows, SweepEach(rows, init), init, p);
      }
    }
  }
}
