/** Runs of the collector: polls, other events and pruning, with the chain of snapshots unbroken. */
module ArrayRuns {
  import opened Prelude
  import opened Incidents
  import opened Relevance
  import opened Sequences
  import opened States
  import opened VirtualDrives
  import opened ArrayAlerts

  /**
   * A poll inserts its snapshot and records the array events among its other events; failures and
   * other jobs record events too; retention forgets the oldest snapshots.
   */
  datatype Step =
    | Poll(snapshot: Snapshot, recordedAt: int, before: seq<Event>, after: seq<Event>)
    | Record(events: seq<Event>)
    | Forget(count: nat)

  datatype Collected = Collected(log: seq<Event>, snapshots: seq<Snapshot>)

  function Previous(snapshots: seq<Snapshot>): Option<seq<VirtualDrive>> {
    if snapshots == [] then None else Some(snapshots[|snapshots| - 1].virtualDrives)
  }

  function Apply(w: Collected, s: Step): Collected {
    match s
    case Poll(snapshot, recordedAt, before, after) =>
      Collected(w.log + before + Detected(Previous(w.snapshots), snapshot.virtualDrives, recordedAt) + after,
                w.snapshots + [snapshot])
    case Record(events) => w.(log := w.log + events)
    case Forget(count) => w.(snapshots := if count <= |w.snapshots| then w.snapshots[count..] else [])
  }

  class ArrayCollector {
    var log: seq<Event>
    var snapshots: seq<Snapshot>

    constructor ()
      ensures View() == Run([])
    {
      log, snapshots := [], [];
    }

    ghost function View(): Collected
      reads this
    {
      Collected(log, snapshots)
    }

    /** One successful poll: load the previous snapshot, insert the new one, detect and record. */
    method RunOnce(snapshot: Snapshot, recordedAt: int, before: seq<Event>, after: seq<Event>)
      modifies this
      ensures View() == Apply(old(View()), Poll(snapshot, recordedAt, before, after))
    {
      var events: seq<Event>;
      var previous := if snapshots == [] then None else Some(snapshots[|snapshots| - 1]);
      snapshots := snapshots + [snapshot];
      if previous.None? {
        events := DetectBaseline(snapshot.virtualDrives, recordedAt);
      } else {
        events := DetectVirtualDrives(previous.value.virtualDrives, snapshot.virtualDrives, recordedAt);
      }
      log := log + before;
      log := log + events;
      log := log + after;
    }

    method RecordOther(events: seq<Event>)
      modifies this
      ensures View() == Apply(old(View()), Record(events))
    {
      log := log + events;
    }

    method PruneOldest(count: nat)
      modifies this
      ensures View() == Apply(old(View()), Forget(count))
    {
      snapshots := if count <= |snapshots| then snapshots[count..] else [];
    }
  }

  predicate OfOtherKinds(events: seq<Event>) {
    forall e :: e in events ==> e.category != "vd_state"
  }

  /** The latest poll, whether or not its snapshot is still stored. */
  function LastPoll(steps: seq<Step>): Option<Snapshot> {
    if steps == [] then None
    else if steps[|steps| - 1].Poll? then Some(steps[|steps| - 1].snapshot)
    else LastPoll(steps[..|steps| - 1])
  }

  function LastInventory(steps: seq<Step>): Option<seq<VirtualDrive>> {
    if LastPoll(steps).None? then None else Some(LastPoll(steps).value.virtualDrives)
  }

  /** Only the array detector records array events, and time goes on. */
  ghost predicate Allowed(last: Option<Snapshot>, s: Step) {
    match s
    case Poll(snapshot, _, before, after) =>
      && Inventory(snapshot.virtualDrives) && OfOtherKinds(before) && OfOtherKinds(after)
      && (last.Some? ==> last.value.at <= snapshot.at)
    case Record(events) => OfOtherKinds(events)
    case Forget(count) => true
  }

  function Run(steps: seq<Step>): Collected {
    if steps == [] then Collected([], []) else Apply(Run(steps[..|steps| - 1]), steps[|steps| - 1])
  }

  /** The collector, driven by any steps, holds the state of that run. */
  method Drive(steps: seq<Step>) returns (collector: ArrayCollector)
    ensures collector.View() == Run(steps)
  {
    collector := new ArrayCollector();
    for i := 0 to |steps|
      invariant fresh(collector) && collector.View() == Run(steps[..i])
    {
      assert steps[..i + 1][..i] == steps[..i];
      match steps[i]
      case Poll(snapshot, recordedAt, before, after) => collector.RunOnce(snapshot, recordedAt, before, after);
      case Record(events) => collector.RecordOther(events);
      case Forget(count) => collector.PruneOldest(count);
    }
    assert steps[..|steps|] == steps;
  }

  ghost predicate Ordered(steps: seq<Step>) {
    steps == [] || (Ordered(steps[..|steps| - 1]) && Allowed(LastPoll(steps[..|steps| - 1]), steps[|steps| - 1]))
  }

  /** Retention never removes the latest snapshot. */
  ghost predicate Unbroken(steps: seq<Step>) {
    steps == [] ||
    (&& Unbroken(steps[..|steps| - 1])
     && (steps[|steps| - 1].Forget? && steps[|steps| - 1].count > 0 ==>
           steps[|steps| - 1].count < |Run(steps[..|steps| - 1]).snapshots|))
  }

  /** A poll for which retention has left no snapshot of the polls before it. */
  predicate Blind(steps: seq<Step>, s: Step) {
    s.Poll? && Run(steps).snapshots == [] && LastPoll(steps).Some?
  }

  predicate HarmlessStep(steps: seq<Step>, s: Step, v: string) {
    Blind(steps, s) ==>
      Harmless(About(Run(steps).log, v), StateOf(LastPoll(steps).value.virtualDrives, v),
               StateOf(s.snapshot.virtualDrives, v))
  }

  /** Every blind poll of the run recorded enough about one drive. */
  ghost predicate HarmlessRun(steps: seq<Step>, v: string) {
    steps == [] || (HarmlessRun(steps[..|steps| - 1], v) && HarmlessStep(steps[..|steps| - 1], steps[|steps| - 1], v))
  }

  ghost predicate Sorted(snapshots: seq<Snapshot>) {
    forall i, j :: 0 <= i < j < |snapshots| ==> snapshots[i].at <= snapshots[j].at
  }

  /** Either nothing was ever polled, or the events of a drive agree with the latest inventory. */
  ghost predicate InAgreement(history: seq<Event>, latest: Option<seq<VirtualDrive>>, v: string) {
    if latest.None? then history == [] else Inventory(latest.value) && Agrees(history, StateOf(latest.value, v))
  }

  lemma OthersAreNotAbout(events: seq<Event>, v: string)
    requires OfOtherKinds(events)
    ensures About(events, v) == []
  {
    FilterNone(events, Concerns(v));
  }

  lemma PollAbout(log: seq<Event>, before: seq<Event>, events: seq<Event>, after: seq<Event>, v: string)
    requires OfOtherKinds(before) && OfOtherKinds(after)
    ensures About(log + before + events + after, v) == About(log, v) + About(events, v)
  {
    AboutConcat(log + before + events, after, v);
    AboutConcat(log + before, events, v);
    AboutConcat(log, before, v);
    OthersAreNotAbout(before, v);
    OthersAreNotAbout(after, v);
  }

  lemma RecordAbout(log: seq<Event>, events: seq<Event>, v: string)
    requires OfOtherKinds(events)
    ensures About(log + events, v) == About(log, v)
  {
    AboutConcat(log, events, v);
    OthersAreNotAbout(events, v);
  }

  lemma FirstPollAgrees(current: seq<VirtualDrive>, v: string, at: int)
    requires Inventory(current)
    ensures InAgreement(About(Detected(None, current, at), v), Some(current), v)
  {
    DetectedAbout(None, current, v, at);
    BaselineAgrees(v, StateOf(current, v), at);
  }

  lemma DetectionKeepsAgreement(history: seq<Event>, previous: seq<VirtualDrive>, current: seq<VirtualDrive>,
                                v: string, at: int)
    requires InAgreement(history, Some(previous), v) && Inventory(current)
    ensures InAgreement(history + About(Detected(Some(previous), current, at), v), Some(current), v)
  {
    DetectedAbout(Some(previous), current, v, at);
    PollAgrees(history, v, StateOf(previous, v), StateOf(current, v), at);
  }

  lemma BlindDetectionAgreesIff(history: seq<Event>, previous: seq<VirtualDrive>, current: seq<VirtualDrive>,
                                v: string, at: int)
    requires InAgreement(history, Some(previous), v) && Inventory(current)
    ensures InAgreement(history + About(Detected(None, current, at), v), Some(current), v)
            <==> Harmless(history, StateOf(previous, v), StateOf(current, v))
  {
    DetectedAbout(None, current, v, at);
    BlindPollAgreesIff(history, v, StateOf(previous, v), StateOf(current, v), at);
  }

  /** What is stored is sorted, and ends with the latest poll. */
  ghost predicate Kept(snapshots: seq<Snapshot>, last: Option<Snapshot>) {
    Sorted(snapshots) && (snapshots != [] ==> last == Some(snapshots[|snapshots| - 1]))
  }

  lemma InsertedIsKept(snapshots: seq<Snapshot>, last: Option<Snapshot>, s: Snapshot)
    requires Kept(snapshots, last) && (last.Some? ==> last.value.at <= s.at)
    ensures Kept(snapshots + [s], Some(s))
  {
  }

  lemma RestIsKept(snapshots: seq<Snapshot>, last: Option<Snapshot>, count: nat)
    requires Kept(snapshots, last) && count <= |snapshots|
    ensures Kept(snapshots[count..], last)
  {
  }

  lemma StepKeepsSnapshots(w: Collected, last: Option<Snapshot>, s: Step)
    requires Kept(w.snapshots, last) && Allowed(last, s)
    ensures Kept(Apply(w, s).snapshots, if s.Poll? then Some(s.snapshot) else last)
  {
    match s
    case Poll(snapshot, _, _, _) => InsertedIsKept(w.snapshots, last, snapshot);
    case Record(_) =>
    case Forget(count) =>
      if count <= |w.snapshots| {
        RestIsKept(w.snapshots, last, count);
      }
  }

  lemma {:induction false} SnapshotsAreKept(steps: seq<Step>)
    requires Ordered(steps)
    ensures Kept(Run(steps).snapshots, LastPoll(steps))
  {
    if steps == [] {
    } else {
      SnapshotsAreKept(steps[..|steps| - 1]);
      StepKeepsSnapshots(Run(steps[..|steps| - 1]), LastPoll(steps[..|steps| - 1]), steps[|steps| - 1]);
    }
  }

  ghost predicate AgreesAfter(steps: seq<Step>, v: string) {
    InAgreement(About(Run(steps).log, v), LastInventory(steps), v)
  }

  lemma PollAgreesIff(w: Collected, last: Option<Snapshot>, s: Step, v: string)
    requires Kept(w.snapshots, last) && Allowed(last, s) && s.Poll?
    requires InAgreement(About(w.log, v), if last.None? then None else Some(last.value.virtualDrives), v)
    ensures InAgreement(About(Apply(w, s).log, v), Some(s.snapshot.virtualDrives), v) <==>
            (w.snapshots == [] && last.Some? ==>
              Harmless(About(w.log, v), StateOf(last.value.virtualDrives, v), StateOf(s.snapshot.virtualDrives, v)))
  {
    var history, current := About(w.log, v), s.snapshot.virtualDrives;
    var events := Detected(Previous(w.snapshots), current, s.recordedAt);
    PollAbout(w.log, s.before, events, s.after, v);
    assert About(Apply(w, s).log, v) == history + About(events, v);
    if last.None? {
      FirstPollAgrees(current, v, s.recordedAt);
      assert history + About(events, v) == About(events, v);
    } else if w.snapshots == [] {
      BlindDetectionAgreesIff(history, last.value.virtualDrives, current, v, s.recordedAt);
    } else {
      DetectionKeepsAgreement(history, last.value.virtualDrives, current, v, s.recordedAt);
    }
  }

  lemma StepAgreesIff(steps: seq<Step>, v: string)
    requires steps != [] && Ordered(steps) && AgreesAfter(steps[..|steps| - 1], v)
    ensures AgreesAfter(steps, v) <==> HarmlessStep(steps[..|steps| - 1], steps[|steps| - 1], v)
  {
    var front, s := steps[..|steps| - 1], steps[|steps| - 1];
    match s
    case Poll(_, _, _, _) =>
      SnapshotsAreKept(front);
      PollAgreesIff(Run(front), LastPoll(front), s, v);
    case Record(events) => RecordAbout(Run(front).log, events, v);
    case Forget(_) =>
  }

  /** Log and snapshots told the same story about a drive after every step of the run. */
  ghost predicate AlwaysAgreed(steps: seq<Step>, v: string) {
    AgreesAfter(steps, v) && (steps == [] || AlwaysAgreed(steps[..|steps| - 1], v))
  }

  /**
   * The exact condition, for every run and drive: replaying the events gives the state that the
   * latest poll saw, or the absence of the drive, after every step, if and only if every blind poll
   * was harmless for that drive.
   */
  lemma {:induction false} LogAndSnapshotAgreeIff(steps: seq<Step>, v: string)
    requires Ordered(steps)
    ensures AlwaysAgreed(steps, v) <==> HarmlessRun(steps, v)
  {
    if steps == [] {
    } else {
      LogAndSnapshotAgreeIff(steps[..|steps| - 1], v);
      if AlwaysAgreed(steps[..|steps| - 1], v) {
        StepAgreesIff(steps, v);
      }
    }
  }

  lemma {:induction false} UnbrokenKeepsTheLatest(steps: seq<Step>)
    requires Unbroken(steps)
    ensures LastPoll(steps).Some? ==> Run(steps).snapshots != []
    ensures forall v :: HarmlessRun(steps, v)
  {
    if steps == [] {
    } else {
      UnbrokenKeepsTheLatest(steps[..|steps| - 1]);
    }
  }

  /** As long as retention leaves the latest snapshot, no poll is blind and they always agree. */
  lemma LogAndSnapshotAgree(steps: seq<Step>, v: string)
    requires Ordered(steps) && Unbroken(steps)
    ensures AlwaysAgreed(steps, v)
  {
    UnbrokenKeepsTheLatest(steps);
    LogAndSnapshotAgreeIff(steps, v);
  }

  lemma {:induction false} LatestIsLast(snapshots: seq<Snapshot>, now: int)
    requires snapshots != [] && Sorted(snapshots) && snapshots[|snapshots| - 1].at <= now
    ensures LatestAt(snapshots, now) == Some(snapshots[|snapshots| - 1])
  {
    if |snapshots| == 1 {
    } else {
      LatestIsLast(snapshots[..|snapshots| - 1], now);
    }
  }

  /**
   * Every run whose blind polls were harmless, every array event, whenever the data is fresh: the
   * alert stands if and only if nothing superseded it.
   */
  lemma ArrayAlertStandsUntilSuperseded(steps: seq<Step>, saved: Saved, id: nat, now: int, c: Settings)
    requires Ordered(steps) && saved.log == Run(steps).log && saved.snapshots == Run(steps).snapshots
    requires id < |saved.log| && saved.log[id].category == "vd_state" && HarmlessRun(steps, saved.log[id].subject)
    requires forall j :: 0 <= j < |saved.log| ==> saved.log[j].occurredAt <= now
    requires saved.snapshots != []
    requires var latest := saved.snapshots[|saved.snapshots| - 1];
      now - Freshness(c) <= latest.at <= now && !FailedSince(saved.log, latest.at, now)
    ensures DeliveryRelevance(saved, id, now, c) == Current <==> !IncidentSuperseded(saved, id, |saved.log|, now, c)
  {
    LogAndSnapshotAgreeIff(steps, saved.log[id].subject);
    SnapshotsAreKept(steps);
    LatestIsLast(saved.snapshots, now);
    StandsExactlyUntilSuperseded(saved, id, saved.snapshots[|saved.snapshots| - 1], now, c);
  }

  lemma OptimalIsInfo()
    ensures StateSeverity("Optl").Info? && NormalizedState("Optl") == "optimal"
    ensures StateSeverity("Dgrd").Critical? && NormalizedState("Dgrd") == "degraded"
  {
    assert Folded("Optl") == "optl";
    assert Folded("Dgrd") == "dgrd";
  }

  lemma BaselineOfOne(d: VirtualDrive, at: int)
    ensures Detected(None, [d], at) == NewDriveEvents(d, at)
  {
    assert [d][..0] == [];
    assert Baseline([d], at) == Baseline([], at) + NewDriveEvents(d, at);
  }

  /** Degraded, then every snapshot pruned, then optimal. */
  function BrokenChain(degraded: Snapshot, optimal: Snapshot): seq<Step> {
    [] + [Poll(degraded, 1, [], [])] + [Forget(1)] + [Poll(optimal, 9, [], [])]
  }

  lemma RunStep(steps: seq<Step>, s: Step)
    ensures Run(steps + [s]) == Apply(Run(steps), s)
    ensures LastPoll(steps + [s]) == if s.Poll? then Some(s.snapshot) else LastPoll(steps)
    ensures Ordered(steps + [s]) <==> Ordered(steps) && Allowed(LastPoll(steps), s)
    ensures forall v :: HarmlessRun(steps + [s], v) <==> HarmlessRun(steps, v) && HarmlessStep(steps, s, v)
  {
  }

  lemma BrokenChainRuns(v: string, degraded: Snapshot, optimal: Snapshot)
    requires degraded.virtualDrives == [VirtualDrive(v, "Dgrd")] && optimal.virtualDrives == [VirtualDrive(v, "Optl")]
    requires degraded.at <= optimal.at
    ensures Ordered(BrokenChain(degraded, optimal))
    ensures Run(BrokenChain(degraded, optimal)) == Collected([StateEvent(v, map[], "Dgrd", 1)], [optimal])
  {
    OptimalIsInfo();
    BaselineOfOne(degraded.virtualDrives[0], 1);
    BaselineOfOne(optimal.virtualDrives[0], 9);
    RunStep([], Poll(degraded, 1, [], []));
    RunStep([] + [Poll(degraded, 1, [], [])], Forget(1));
    RunStep([] + [Poll(degraded, 1, [], [])] + [Forget(1)], Poll(optimal, 9, [], []));
  }

  /**
   * A broken chain loses the recovery event: the array degraded, every snapshot was pruned, and the
   * next poll took the healthy array for its baseline. The alert is over, yet nothing superseded it.
   */
  lemma BrokenChainHidesRecovery(v: string, degraded: Snapshot, optimal: Snapshot, saved: Saved, c: Settings)
    requires degraded.virtualDrives == [VirtualDrive(v, "Dgrd")] && optimal.virtualDrives == [VirtualDrive(v, "Optl")]
    requires degraded.at <= optimal.at == 9 && c.pollSeconds >= 0
    requires saved.log == Run(BrokenChain(degraded, optimal)).log
    requires saved.snapshots == Run(BrokenChain(degraded, optimal)).snapshots
    ensures Ordered(BrokenChain(degraded, optimal)) && !HarmlessRun(BrokenChain(degraded, optimal), v)
    ensures saved.log != [] && !IncidentSuperseded(saved, 0, |saved.log|, 9, c)
    ensures DeliveryRelevance(saved, 0, 9, c) == Over
  {
    BrokenChainRuns(v, degraded, optimal);
    OptimalIsInfo();
    LatestIsLast(saved.snapshots, 9);
    assert StateOf(optimal.virtualDrives, v) == Some("Optl");
    if HarmlessRun(BrokenChain(degraded, optimal), v) {
      ArrayAlertStandsUntilSuperseded(BrokenChain(degraded, optimal), saved, 0, 9, c);
    }
  }
}
