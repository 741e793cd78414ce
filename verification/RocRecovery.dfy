/**
 * Bounded evidence that the controller temperature recovered: two stored "latest clear" times
 * next to a history of readings that retention prunes.
 */
module RocRecovery {
  import opened Prelude
  import opened Sequences

  /** The two alert levels whose clears are remembered. */
  datatype Gauge = WarningGauge | CriticalGauge

  datatype Limits = Limits(warning: int, critical: int, hysteresis: int)

  function Boundary(limits: Limits, g: Gauge): int {
    (if g.CriticalGauge? then limits.critical else limits.warning) - limits.hysteresis
  }

  datatype Reading = Reading(at: int, temperature: Option<int>)

  predicate Clears(r: Reading, g: Gauge, limits: Limits) {
    r.temperature.Some? && r.temperature.value <= Boundary(limits, g)
  }

  function Later(a: Option<int>, b: Option<int>): Option<int> {
    if a.None? then b else if b.None? then a else Some(Max(a.value, b.value))
  }

  /** The latest time at or before `until` at which a reading cleared a gauge. */
  function LatestClear(readings: seq<Reading>, until: int, g: Gauge, limits: Limits): Option<int> {
    if readings == [] then None else
      var last := readings[|readings| - 1];
      Later(LatestClear(readings[..|readings| - 1], until, g, limits),
            if last.at <= until && Clears(last, g, limits) then Some(last.at) else None)
  }

  /** A clear strictly after an incident and not after `until`, looked up in a list of readings. */
  predicate ClearedBetween(readings: seq<Reading>, occurred: int, until: int, g: Gauge, limits: Limits) {
    exists r :: r in readings && Clears(r, g, limits) && occurred < r.at <= until
  }

  predicate ClearsAfter(readings: seq<Reading>, until: int, g: Gauge, limits: Limits) {
    exists r :: r in readings && Clears(r, g, limits) && r.at > until
  }

  /** What the database holds; `history` is every reading ever taken and is not stored. */
  datatype Evidence = Evidence(cleared: map<Gauge, int>, kept: seq<Reading>, history: seq<Reading>)

  const NO_EVIDENCE := Evidence(map[], [], [])

  function Stored(e: Evidence, g: Gauge): Option<int> {
    if g in e.cleared then Some(e.cleared[g]) else None
  }

  /** Whether the service considers an incident of this gauge recovered by `until`. */
  predicate Recovered(e: Evidence, occurred: int, until: int, g: Gauge, limits: Limits) {
    || (g in e.cleared && occurred < e.cleared[g] <= until)
    || ClearedBetween(e.kept, occurred, until, g, limits)
  }

  // ------------------------------------------------------------- the two writers

  /** The stored time of one gauge after a successful poll whose reading is already kept. */
  function Recorded(e: Evidence, r: Reading, g: Gauge, limits: Limits): Option<int> {
    var existing := Stored(e, g);
    var seen := if Clears(r, g, limits) then Some(r.at) else None;
    var observed := if existing.None? && seen.None? then LatestClear(e.kept + [r], r.at, g, limits) else seen;
    if observed.Some? && (existing.None? || observed.value > existing.value) then observed else existing
  }

  function Only(o: Option<int>, g: Gauge): map<Gauge, int> {
    if o.Some? then map[g := o.value] else map[]
  }

  datatype Step = Poll(reading: Reading) | Prune(cutoff: int)

  function NotBefore(cutoff: int): Reading -> bool {
    (r: Reading) => r.at >= cutoff
  }

  function KeptFrom(readings: seq<Reading>, cutoff: int): seq<Reading> {
    Filter(readings, NotBefore(cutoff))
  }

  function Apply(e: Evidence, s: Step, limits: Limits): Evidence {
    match s
    case Poll(r) =>
      Evidence(Only(Recorded(e, r, WarningGauge, limits), WarningGauge)
               + Only(Recorded(e, r, CriticalGauge, limits), CriticalGauge),
               e.kept + [r], e.history + [r])
    case Prune(cutoff) => e.(kept := KeptFrom(e.kept, cutoff))
  }

  /** Tracking from the first snapshot on, under fixed thresholds. */
  function Run(steps: seq<Step>, limits: Limits): Evidence {
    if steps == [] then NO_EVIDENCE else Apply(Run(steps[..|steps| - 1], limits), steps[|steps| - 1], limits)
  }

  lemma OnlyTheseGauges(cleared: map<Gauge, int>)
    ensures cleared == Only(Stored(Evidence(cleared, [], []), WarningGauge), WarningGauge)
                       + Only(Stored(Evidence(cleared, [], []), CriticalGauge), CriticalGauge)
  {
    forall g | g in cleared ensures g == WarningGauge || g == CriticalGauge {
    }
  }

  class RecoveryLog {
    const limits: Limits
    var cleared: map<Gauge, int>
    var kept: seq<Reading>
    ghost var history: seq<Reading>

    constructor (limits: Limits)
      ensures this.limits == limits && View() == NO_EVIDENCE
    {
      this.limits, cleared, kept, history := limits, map[], [], [];
    }

    ghost function View(): Evidence
      reads this
    {
      Evidence(cleared, kept, history)
    }

    /** One iteration per gauge: observe, bootstrap from what is kept, store only a later time. */
    method RecordClears(r: Reading)
      requires kept != [] && kept[|kept| - 1] == r
      modifies `cleared
      ensures var before := Evidence(old(cleared), kept[..|kept| - 1], history);
        cleared == Only(Recorded(before, r, WarningGauge, limits), WarningGauge)
                   + Only(Recorded(before, r, CriticalGauge, limits), CriticalGauge)
    {
      ghost var before := Evidence(cleared, kept[..|kept| - 1], history);
      assert before.kept + [r] == kept;
      var gauges := [WarningGauge, CriticalGauge];
      for i := 0 to 2
        invariant Stored(View(), WarningGauge) ==
                if i < 1 then Stored(before, WarningGauge) else Recorded(before, r, WarningGauge, limits)
        invariant Stored(View(), CriticalGauge) ==
                if i < 2 then Stored(before, CriticalGauge) else Recorded(before, r, CriticalGauge, limits)
      {
        var g := gauges[i];
        var existing := if g in cleared then Some(cleared[g]) else None;
        var observed := if r.temperature.Some? && r.temperature.value <= Boundary(limits, g) then Some(r.at) else None;
        if existing.None? && observed.None? {
          observed := LatestClear(kept, r.at, g, limits);
        }
        if observed.Some? && (existing.None? || observed.value > existing.value) {
          cleared := cleared[g := observed.value];
        }
      }
      OnlyTheseGauges(cleared);
    }

    method RecordPoll(r: Reading)
      modifies this
      ensures View() == Apply(old(View()), Poll(r), limits)
    {
      kept, history := kept + [r], history + [r];
      assert kept[..|kept| - 1] == old(kept);
      RecordClears(r);
    }

    method PruneReadings(cutoff: int)
      modifies this
      ensures View() == Apply(old(View()), Prune(cutoff), limits)
    {
      kept := KeptFrom(kept, cutoff);
    }
  }

  /** The bookkeeping, driven by any polls and pruning, holds the evidence of that run. */
  method Drive(steps: seq<Step>, limits: Limits) returns (log: RecoveryLog)
    ensures log.View() == Run(steps, limits)
  {
    log := new RecoveryLog(limits);
    for i := 0 to |steps|
      invariant fresh(log) && log.limits == limits && log.View() == Run(steps[..i], limits)
    {
      assert steps[..i + 1][..i] == steps[..i];
      match steps[i]
      case Poll(r) => log.RecordPoll(r);
      case Prune(cutoff) => log.PruneReadings(cutoff);
    }
    assert steps[..|steps|] == steps;
  }

  // ------------------------------------------------------------- the evidence is complete

  /** Nothing cleared by `until` means no latest clear, and the latest one is a clear that is not exceeded. */
  lemma {:induction false} LatestClearIsTheMaximum(readings: seq<Reading>, until: int, g: Gauge, limits: Limits)
    ensures var latest := LatestClear(readings, until, g, limits);
      && (latest.Some? ==>
            && latest.value <= until
            && exists r :: r in readings && Clears(r, g, limits) && r.at == latest.value)
      && (forall r :: r in readings && Clears(r, g, limits) && r.at <= until ==> latest.Some? && r.at <= latest.value)
  {
    if readings == [] {
    } else {
      var front, last := readings[..|readings| - 1], readings[|readings| - 1];
      LatestClearIsTheMaximum(front, until, g, limits);
      assert readings == front + [last];
      var latest := LatestClear(readings, until, g, limits);
      if latest.Some? && !(last.at <= until && Clears(last, g, limits) && last.at == latest.value) {
        var r :| r in front && Clears(r, g, limits) && r.at == latest.value;
        assert r in readings;
      }
    }
  }

  /** What is stored for a gauge is the maximum over every reading ever taken. */
  ghost predicate Remembers(e: Evidence, g: Gauge, limits: Limits) {
    && (g in e.cleared ==> exists r :: r in e.history && Clears(r, g, limits) && r.at == e.cleared[g])
    && (forall r :: r in e.history && Clears(r, g, limits) ==> g in e.cleared && r.at <= e.cleared[g])
    && (forall r :: r in e.kept ==> r in e.history)
  }

  lemma PollRemembers(e: Evidence, r: Reading, g: Gauge, limits: Limits)
    requires Remembers(e, g, limits)
    ensures Remembers(Apply(e, Poll(r), limits), g, limits)
  {
    var next := Apply(e, Poll(r), limits);
    assert Stored(next, g) == Recorded(e, r, g, limits);
    LatestClearIsTheMaximum(e.kept + [r], r.at, g, limits);
    if Clears(r, g, limits) {
      assert r in next.history;
    }
    if g in e.cleared {
      var first :| first in e.history && Clears(first, g, limits) && first.at == e.cleared[g];
      assert first in next.history;
    }
  }

  lemma PruneRemembers(e: Evidence, cutoff: int, g: Gauge, limits: Limits)
    requires Remembers(e, g, limits)
    ensures Remembers(Apply(e, Prune(cutoff), limits), g, limits)
  {
  }

  lemma {:induction false} EveryRunRemembers(steps: seq<Step>, g: Gauge, limits: Limits)
    ensures Remembers(Run(steps, limits), g, limits)
  {
    if steps == [] {
    } else {
      var front := Run(steps[..|steps| - 1], limits);
      EveryRunRemembers(steps[..|steps| - 1], g, limits);
      match steps[|steps| - 1]
      case Poll(r) => PollRemembers(front, r, g, limits);
      case Prune(cutoff) => PruneRemembers(front, cutoff, g, limits);
    }
  }

  /**
   * The exact answer, for every run, incident and deadline: the stored times and the kept readings
   * find a recovery of the full history unless a later clear has replaced the stored time and the
   * readings in between are pruned. They never find one that did not happen.
   */
  lemma RecoveredExactlyWhen(steps: seq<Step>, occurred: int, until: int, g: Gauge, limits: Limits)
    ensures var e := Run(steps, limits);
      Recovered(e, occurred, until, g, limits) <==>
        && ClearedBetween(e.history, occurred, until, g, limits)
        && (ClearsAfter(e.history, until, g, limits) ==> ClearedBetween(e.kept, occurred, until, g, limits))
  {
    EveryRunRemembers(steps, g, limits);
  }

  /** Asked as of now, the bounded evidence answers like the history that was never pruned. */
  lemma RecoveredAsOfNow(steps: seq<Step>, occurred: int, now: int, g: Gauge, limits: Limits)
    requires forall r :: r in Run(steps, limits).history ==> r.at <= now
    ensures var e := Run(steps, limits);
      Recovered(e, occurred, now, g, limits) <==> ClearedBetween(e.history, occurred, now, g, limits)
  {
    EveryRunRemembers(steps, g, limits);
  }

  /**
   * Asked as of the time of an event that itself is not recovered by now, it does so too. The
   * duplicate check asks about older incidents only after the event passed that check.
   */
  lemma RecoveredAsOfALiveEvent(steps: seq<Step>, older: int, event: int, now: int, g: Gauge, limits: Limits)
    requires forall r :: r in Run(steps, limits).history ==> r.at <= now
    requires !Recovered(Run(steps, limits), event, now, g, limits)
    ensures var e := Run(steps, limits);
      Recovered(e, older, event, g, limits) <==> ClearedBetween(e.history, older, event, g, limits)
  {
    RecoveredAsOfNow(steps, event, now, g, limits);
    EveryRunRemembers(steps, g, limits);
  }

  lemma RunStep(steps: seq<Step>, s: Step, limits: Limits)
    ensures Run(steps + [s], limits) == Apply(Run(steps, limits), s, limits)
  {
  }

  /** Without that check the answer can be lost: cleared at 20, cleared again at 60, and pruned up to 50. */
  lemma LaterClearsHideEarlierOnes(cool: Option<int>, limits: Limits)
    requires Clears(Reading(0, cool), WarningGauge, limits)
    ensures var e := Run([] + [Poll(Reading(20, cool))] + [Poll(Reading(60, cool))] + [Prune(50)], limits);
      && ClearedBetween(e.history, 10, 30, WarningGauge, limits)
      && !Recovered(e, 10, 30, WarningGauge, limits)
  {
    var first, second := Reading(20, cool), Reading(60, cool);
    var steps := [] + [Poll(first)];
    RunStep([], Poll(first), limits);
    RunStep(steps, Poll(second), limits);
    RunStep(steps + [Poll(second)], Prune(50), limits);
    FilterLast([], first, NotBefore(50));
    FilterLast([] + [first], second, NotBefore(50));
    var e := Run(steps + [Poll(second)] + [Prune(50)], limits);
    assert e.history[0] == first && e.history[1] == second;
    RecoveredExactlyWhen(steps + [Poll(second)] + [Prune(50)], 10, 30, WarningGauge, limits);
  }
}
