/** The outage alert: failed polls, the last success that is still stored, and one alert per outage. */
module MonitoringOutage {
  import opened Prelude
  import opened Sequences

  const MIN_FAILED_POLLS := 3

  /**
   * The times of the stored failures, outage alerts and snapshots. The last three fields are not
   * stored: when collection last succeeded, and what happened since.
   */
  datatype Watch = Watch(failures: seq<int>, alerts: seq<int>, snapshots: seq<int>,
                         succeeded: Option<int>, failuresSince: nat, alertsSince: nat)

  function Latest(times: seq<int>): Option<int> {
    if times == [] then None else
      var rest := Latest(times[..|times| - 1]);
      Some(if rest.Some? && rest.value > times[|times| - 1] then rest.value else times[|times| - 1])
  }

  function Earliest(times: seq<int>): Option<int> {
    if times == [] then None else
      var rest := Earliest(times[..|times| - 1]);
      Some(if rest.Some? && rest.value < times[|times| - 1] then rest.value else times[|times| - 1])
  }

  /** The times after a bound; without a bound, all of them. */
  function After(times: seq<int>, bound: Option<int>): seq<int> {
    Filter(times, LaterThan(bound))
  }

  function LaterThan(bound: Option<int>): int -> bool {
    (t: int) => bound.None? || t > bound.value
  }

  predicate AnyAfter(times: seq<int>, bound: int) {
    exists i :: 0 <= i < |times| && times[i] > bound
  }

  /** Whether the failure at `now`, already recorded, completes an outage that was not reported yet. */
  predicate Stale(failures: seq<int>, alerts: seq<int>, snapshots: seq<int>, now: int, patience: int) {
    var success := Latest(snapshots);
    var recent := After(failures, success);
    && |recent| >= MIN_FAILED_POLLS
    && var since := if success.Some? then success.value else Earliest(recent).value;
       now - since >= patience && !AnyAfter(alerts, since)
  }

  datatype Step = Success(at: int) | Failure(at: int, reportedAt: int) | Prune(cutoff: int)

  function KeptFrom(times: seq<int>, cutoff: int): seq<int> {
    Filter(times, (t: int) => t >= cutoff)
  }

  function Apply(w: Watch, s: Step, patience: int): Watch {
    match s
    case Success(at) => Watch(w.failures, w.alerts, w.snapshots + [at], Some(at), 0, 0)
    case Prune(cutoff) => w.(snapshots := KeptFrom(w.snapshots, cutoff))
    case Failure(at, reportedAt) =>
      var failures := w.failures + [at];
      var alert := Stale(failures, w.alerts, w.snapshots, at, patience);
      w.(failures := failures, alerts := w.alerts + (if alert then [reportedAt] else []),
         failuresSince := w.failuresSince + 1, alertsSince := w.alertsSince + if alert then 1 else 0)
  }

  class Collector {
    const patience: int
    var failures: seq<int>
    var alerts: seq<int>
    var snapshots: seq<int>
    ghost var succeeded: Option<int>
    ghost var failuresSince: nat
    ghost var alertsSince: nat

    constructor (patience: int)
      ensures this.patience == patience && View() == START
    {
      this.patience, failures, alerts, snapshots := patience, [], [], [];
      succeeded, failuresSince, alertsSince := None, 0, 0;
    }

    ghost function View(): Watch
      reads this
    {
      Watch(failures, alerts, snapshots, succeeded, failuresSince, alertsSince)
    }

    /** The failure is recorded first, so it counts itself. */
    method RecordFailure(at: int, reportedAt: int)
      modifies this
      ensures View() == Apply(old(View()), Failure(at, reportedAt), patience)
    {
      failures := failures + [at];
      var stale := MonitoringStale(at);
      if stale {
        alerts := alerts + [reportedAt];
        alertsSince := alertsSince + 1;
      }
      failuresSince := failuresSince + 1;
    }

    method MonitoringStale(failure: int) returns (stale: bool)
      requires failures != []
      ensures stale == Stale(failures, alerts, snapshots, failure, patience)
    {
      var success := Latest(snapshots);
      var recent := After(failures, success);
      if |recent| < MIN_FAILED_POLLS {
        return false;
      }
      var since := if success.Some? then success.value else Earliest(recent).value;
      if failure - since < patience {
        return false;
      }
      if AnyAfter(alerts, since) {
        return false;
      }
      return true;
    }

    method RecordSuccess(at: int)
      modifies this
      ensures View() == Apply(old(View()), Success(at), patience)
    {
      snapshots := snapshots + [at];
      succeeded, failuresSince, alertsSince := Some(at), 0, 0;
    }

    method PruneSnapshots(cutoff: int)
      modifies this
      ensures View() == Apply(old(View()), Prune(cutoff), patience)
    {
      snapshots := KeptFrom(snapshots, cutoff);
    }
  }

  const START := Watch([], [], [], None, 0, 0)

  // ------------------------------------------------------------- whole runs

  function Run(steps: seq<Step>, patience: int): Watch {
    if steps == [] then START else Apply(Run(steps[..|steps| - 1], patience), steps[|steps| - 1], patience)
  }

  /** The collector, driven by any successes, failures and pruning, holds the state of that run. */
  method Drive(steps: seq<Step>, patience: int) returns (collector: Collector)
    ensures collector.View() == Run(steps, patience)
  {
    collector := new Collector(patience);
    for i := 0 to |steps|
      invariant fresh(collector) && collector.patience == patience && collector.View() == Run(steps[..i], patience)
    {
      assert steps[..i + 1][..i] == steps[..i];
      match steps[i]
      case Success(at) => collector.RecordSuccess(at);
      case Failure(at, reportedAt) => collector.RecordFailure(at, reportedAt);
      case Prune(cutoff) => collector.PruneSnapshots(cutoff);
    }
    assert steps[..|steps|] == steps;
  }

  /** The latest time a run has mentioned. */
  function Clock(steps: seq<Step>): Option<int> {
    if steps == [] then None else
      match steps[|steps| - 1]
      case Success(at) => Some(at)
      case Failure(_, reportedAt) => Some(reportedAt)
      case Prune(_) => Clock(steps[..|steps| - 1])
  }

  predicate Follows(clock: Option<int>, s: Step) {
    match s
    case Success(at) => clock.Some? ==> at > clock.value
    case Failure(at, reportedAt) => reportedAt >= at && (clock.Some? ==> at > clock.value)
    case Prune(_) => true
  }

  /** Polls happen one after the other, at increasing times. */
  predicate InOrder(steps: seq<Step>) {
    steps == [] || (InOrder(steps[..|steps| - 1]) && Follows(Clock(steps[..|steps| - 1]), steps[|steps| - 1]))
  }

  ghost predicate AllUpTo(times: seq<int>, bound: Option<int>) {
    forall i :: 0 <= i < |times| ==> bound.Some? && times[i] <= bound.value
  }

  /** The last success is stored, or pruning has removed every snapshot. */
  predicate Retained(w: Watch) {
    Latest(w.snapshots) == w.succeeded
  }

  ghost predicate SnapshotsMakeSense(w: Watch, clock: Option<int>) {
    && AllUpTo(w.snapshots, clock) && AllUpTo(w.failures, clock)
    && (w.succeeded.Some? ==> clock.Some? && w.succeeded.value <= clock.value)
    && (Retained(w) || w.snapshots == [])
  }

  /** An alert of this outage is later than the last success and than the first failure on record. */
  ghost predicate AlertedOnce(w: Watch) {
    && w.alertsSince <= 1
    && (w.alertsSince == 1 ==>
          && w.failures != []
          && AnyAfter(w.alerts, Earliest(w.failures).value)
          && (w.succeeded.Some? ==> AnyAfter(w.alerts, w.succeeded.value)))
  }

  lemma {:induction false} EarliestIsLeast(times: seq<int>)
    ensures times == [] <==> Earliest(times).None?
    ensures times != [] ==>
              Earliest(times).value in times && forall i :: 0 <= i < |times| ==> Earliest(times).value <= times[i]
  {
    if times == [] {
    } else {
      EarliestIsLeast(times[..|times| - 1]);
      assert times == times[..|times| - 1] + [times[|times| - 1]];
    }
  }

  lemma {:induction false} LatestIsGreatest(times: seq<int>)
    ensures times == [] <==> Latest(times).None?
    ensures times != [] ==>
              Latest(times).value in times && forall i :: 0 <= i < |times| ==> Latest(times).value >= times[i]
  {
    if times == [] {
    } else {
      LatestIsGreatest(times[..|times| - 1]);
      assert times == times[..|times| - 1] + [times[|times| - 1]];
    }
  }

  lemma AfterNothing(times: seq<int>)
    ensures After(times, None) == times
  {
    FilterAll(times, LaterThan(None));
  }

  lemma PruningKeepsTheLatest(times: seq<int>, cutoff: int)
    ensures KeptFrom(times, cutoff) == [] || Latest(KeptFrom(times, cutoff)) == Latest(times)
  {
    LatestIsGreatest(times);
    LatestIsGreatest(KeptFrom(times, cutoff));
  }

  lemma NoneAfter(times: seq<int>, bound: int)
    requires forall i :: 0 <= i < |times| ==> times[i] <= bound
    ensures After(times, Some(bound)) == []
  {
    FilterNone(times, LaterThan(Some(bound)));
  }

  /** The stored failures after the last success are the failed polls since then. */
  predicate CountsFailures(w: Watch) {
    |After(w.failures, w.succeeded)| == w.failuresSince
  }

  ghost predicate Sound(w: Watch, clock: Option<int>) {
    SnapshotsMakeSense(w, clock) && AlertedOnce(w) && CountsFailures(w)
  }

  lemma SuccessIsSound(w: Watch, clock: Option<int>, at: int, patience: int)
    requires Sound(w, clock) && (clock.Some? ==> at > clock.value)
    ensures Sound(Apply(w, Success(at), patience), Some(at))
  {
    NoneAfter(w.failures, at);
    LatestOfNewest(w.snapshots, at);
  }

  lemma LatestOfNewest(times: seq<int>, at: int)
    requires forall i :: 0 <= i < |times| ==> times[i] <= at
    ensures Latest(times + [at]) == Some(at)
  {
    LatestIsGreatest(times + [at]);
    assert (times + [at])[|times|] == at;
  }

  lemma PruneIsSound(w: Watch, clock: Option<int>, cutoff: int, patience: int)
    requires Sound(w, clock)
    ensures Sound(Apply(w, Prune(cutoff), patience), clock)
  {
    PruningKeepsTheLatest(w.snapshots, cutoff);
    var kept := KeptFrom(w.snapshots, cutoff);
    forall i | 0 <= i < |kept| ensures clock.Some? && kept[i] <= clock.value {
      assert kept[i] in kept;
    }
  }

  /** An alert is only raised while none of this outage is stored. */
  lemma NoSecondAlert(w: Watch, clock: Option<int>, at: int, patience: int)
    requires Sound(w, clock) && Stale(w.failures + [at], w.alerts, w.snapshots, at, patience)
    ensures w.alertsSince == 0
  {
    AfterNothing(w.failures + [at]);
    EarliestIsLeast(w.failures);
    EarliestIsLeast(w.failures + [at]);
    assert (w.failures + [at])[..|w.failures|] == w.failures;
  }

  lemma EarliestOnlyFalls(times: seq<int>, t: int)
    requires times != []
    ensures Earliest(times + [t]).Some? && Earliest(times + [t]).value <= Earliest(times).value
  {
  }

  lemma FailureKeepsCount(w: Watch, clock: Option<int>, at: int, reportedAt: int, patience: int)
    requires SnapshotsMakeSense(w, clock) && CountsFailures(w) && reportedAt >= at && (clock.Some? ==> at > clock.value)
    ensures SnapshotsMakeSense(Apply(w, Failure(at, reportedAt), patience), Some(reportedAt))
    ensures CountsFailures(Apply(w, Failure(at, reportedAt), patience))
  {
    FilterLast(w.failures, at, LaterThan(w.succeeded));
  }

  lemma FailureAlertsOnce(w: Watch, clock: Option<int>, at: int, reportedAt: int, patience: int)
    requires Sound(w, clock) && reportedAt >= at && (clock.Some? ==> at > clock.value)
    ensures AlertedOnce(Apply(w, Failure(at, reportedAt), patience))
  {
    var next := Apply(w, Failure(at, reportedAt), patience);
    if Stale(next.failures, w.alerts, w.snapshots, at, patience) {
      NoSecondAlert(w, clock, at, patience);
      EarliestIsLeast(w.failures);
      EarliestOnlyFalls(w.failures, at);
      assert next.alerts[|w.alerts|] == reportedAt;
    } else if w.alertsSince == 1 {
      EarliestOnlyFalls(w.failures, at);
      assert next.alerts == w.alerts;
    }
  }

  lemma FailureIsSound(w: Watch, clock: Option<int>, at: int, reportedAt: int, patience: int)
    requires Sound(w, clock) && reportedAt >= at && (clock.Some? ==> at > clock.value)
    ensures Sound(Apply(w, Failure(at, reportedAt), patience), Some(reportedAt))
  {
    FailureKeepsCount(w, clock, at, reportedAt, patience);
    FailureAlertsOnce(w, clock, at, reportedAt, patience);
  }

  lemma {:induction false} RunsAreSound(steps: seq<Step>, patience: int)
    requires InOrder(steps)
    ensures Sound(Run(steps, patience), Clock(steps))
  {
    if steps == [] {
    } else {
      var front := steps[..|steps| - 1];
      RunsAreSound(front, patience);
      match steps[|steps| - 1]
      case Success(at) => SuccessIsSound(Run(front, patience), Clock(front), at, patience);
      case Failure(at, reportedAt) => FailureIsSound(Run(front, patience), Clock(front), at, reportedAt, patience);
      case Prune(cutoff) => PruneIsSound(Run(front, patience), Clock(front), cutoff, patience);
    }
  }

  /** Between two successes at most one alert is raised, even when every snapshot is pruned meanwhile. */
  lemma OneAlertPerOutage(steps: seq<Step>, patience: int)
    requires InOrder(steps)
    ensures Run(steps, patience).alertsSince <= 1
  {
    RunsAreSound(steps, patience);
  }

  /** When the outage began: with the last success, or with the first failed poll if there never was one. */
  function OutageStart(w: Watch, at: int): int {
    if w.succeeded.Some? then w.succeeded.value else Earliest(w.failures + [at]).value
  }

  /** Three failed polls and the configured time, both since the outage began. */
  predicate Earned(w: Watch, at: int, patience: int) {
    w.failuresSince + 1 >= MIN_FAILED_POLLS && at - OutageStart(w, at) >= patience
  }

  predicate Raises(w: Watch, at: int, patience: int) {
    Stale(w.failures + [at], w.alerts, w.snapshots, at, patience)
  }

  lemma RecentFailures(w: Watch, at: int, clock: Option<int>)
    requires Sound(w, clock) && (clock.Some? ==> at > clock.value)
    ensures |After(w.failures + [at], w.succeeded)| == w.failuresSince + 1
    ensures w.succeeded.None? ==> After(w.failures + [at], w.succeeded) == w.failures + [at]
  {
    AfterNothing(w.failures + [at]);
  }

  /** While the last success is stored, or if there never was one, an alert is raised only when it is earned. */
  lemma AlertsAreEarned(steps: seq<Step>, at: int, patience: int)
    requires InOrder(steps + [Failure(at, at)]) && Retained(Run(steps, patience))
    ensures Raises(Run(steps, patience), at, patience) ==> Earned(Run(steps, patience), at, patience)
  {
    assert (steps + [Failure(at, at)])[..|steps|] == steps;
    RunsAreSound(steps, patience);
    RecentFailures(Run(steps, patience), at, Clock(steps));
  }

  /**
   * And the first failure that earns it raises it, when no alert was raised since the outage began:
   * the alert neither waits longer nor is masked by older outages.
   */
  lemma EarnedAlertsAreRaised(steps: seq<Step>, at: int, patience: int)
    requires InOrder(steps + [Failure(at, at)])
    requires var w := Run(steps, patience); Retained(w) && Earned(w, at, patience)
    ensures var w := Run(steps, patience); Raises(w, at, patience) <==> !AnyAfter(w.alerts, OutageStart(w, at))
  {
    assert (steps + [Failure(at, at)])[..|steps|] == steps;
    RunsAreSound(steps, patience);
    RecentFailures(Run(steps, patience), at, Clock(steps));
  }

  /**
   * While no snapshot is stored, every failure on record counts, also those before a success that was
   * pruned: the alert needs three of them, the configured time since the first, and no alert since then.
   */
  lemma AlertsAfterPruning(steps: seq<Step>, at: int, patience: int)
    requires InOrder(steps + [Failure(at, at)]) && Run(steps, patience).snapshots == []
    ensures var w := Run(steps, patience);
      Raises(w, at, patience) <==>
        && |w.failures| >= 2 && at - Earliest(w.failures).value >= patience
        && !AnyAfter(w.alerts, Earliest(w.failures).value)
  {
    assert (steps + [Failure(at, at)])[..|steps|] == steps;
    RunsAreSound(steps, patience);
    var w := Run(steps, patience);
    AfterNothing(w.failures + [at]);
    EarliestIsLeast(w.failures);
    EarliestIsLeast(w.failures + [at]);
    assert (w.failures + [at])[..|w.failures|] == w.failures;
  }

  function Forgotten(): seq<Step> {
    [] + [Failure(1, 1)] + [Failure(2, 2)] + [Success(3)] + [Prune(4)]
  }

  lemma RunStep(steps: seq<Step>, s: Step, patience: int)
    ensures Run(steps + [s], patience) == Apply(Run(steps, patience), s, patience)
    ensures InOrder(steps + [s]) <==> InOrder(steps) && Follows(Clock(steps), s)
    ensures Clock(steps + [s]) ==
            match s case Success(at) => Some(at) case Failure(_, r) => Some(r) case Prune(_) => Clock(steps)
  {
  }

  /** So a single failed poll can raise it: two old failures, a success that was pruned, one failure. */
  lemma PrunedSuccessLetsOneFailureAlert(at: int, patience: int)
    requires at > 4 && 10 <= patience && at - 1 >= patience
    ensures InOrder(Forgotten() + [Failure(at, at)])
    ensures var w := Run(Forgotten(), patience); Raises(w, at, patience) && !Earned(w, at, patience)
  {
    RunStep([], Failure(1, 1), patience);
    RunStep([] + [Failure(1, 1)], Failure(2, 2), patience);
    RunStep([] + [Failure(1, 1)] + [Failure(2, 2)], Success(3), patience);
    RunStep([] + [Failure(1, 1)] + [Failure(2, 2)] + [Success(3)], Prune(4), patience);
    RunStep(Forgotten(), Failure(at, at), patience);
    ForgottenState(patience);
    AlertsAfterPruning(Forgotten(), at, patience);
  }

  lemma ForgottenState(patience: int)
    requires 10 <= patience
    ensures Run(Forgotten(), patience) == Watch([1, 2], [], [], Some(3), 0, 0) && Earliest([1, 2]) == Some(1)
  {
    RunStep([], Failure(1, 1), patience);
    RunStep([] + [Failure(1, 1)], Failure(2, 2), patience);
    RunStep([] + [Failure(1, 1)] + [Failure(2, 2)], Success(3), patience);
    RunStep([] + [Failure(1, 1)] + [Failure(2, 2)] + [Success(3)], Prune(4), patience);
    AfterNothing([1]);
    AfterNothing([1, 2]);
    FilterNone([3], (t: int) => t >= 4);
    assert [1, 2][..1] == [1];
    assert Earliest([1]) == Some(1) by {
      assert [1][..0] == [];
    }
  }
}
