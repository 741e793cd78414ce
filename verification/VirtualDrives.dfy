/** Array events: what the collector records about virtual drives, and what a queued alert may rely on. */
module VirtualDrives {
  import opened Prelude
  import opened Incidents
  import opened Sequences
  import opened Relevance
  import opened States

  const CRITICAL_STATES := {"degraded", "dgrd", "partially degraded", "pdgd", "failed", "offline", "offln", "ofln"}

  function StateSeverity(state: string): Severity {
    var normalized := NormalizedState(state);
    if normalized == "optl" || normalized == "optimal" then Info
    else if normalized in CRITICAL_STATES then Critical
    else Warning
  }

  /** Losing a virtual drive is critical, finding one is not. */
  function PresenceEvent(subject: string, present: bool, state: string, previous: Value, at: int): Event {
    Event(if present then Info else Critical, "vd_state", subject,
          subject + if present then " detected" else " no longer detected", at,
          map["present" := Flag(!present), "state" := previous],
          map["present" := Flag(present), "state" := Text(state)])
  }

  function StateEvent(subject: string, before: Fields, state: string, at: int): Event {
    Event(StateSeverity(state), "vd_state", subject, subject + " state is " + state, at, before,
          map["state" := Text(state)])
  }

  /** A drive that is new and not healthy is reported at once. */
  function NewDriveEvents(d: VirtualDrive, at: int): seq<Event> {
    if StateSeverity(d.state).Info? then [] else [StateEvent(d.subject, map[], d.state, at)]
  }

  /** What a poll records about a drive of the previous snapshot. */
  function ChangeEvents(d: VirtualDrive, current: Option<string>, at: int): seq<Event> {
    if current.None? then [PresenceEvent(d.subject, false, "Offline", Text(d.state), at)]
    else if NormalizedState(d.state) == NormalizedState(current.value) then []
    else [StateEvent(d.subject, map["state" := Text(d.state)], current.value, at)]
  }

  function FoundEvents(d: VirtualDrive, at: int): seq<Event> {
    [PresenceEvent(d.subject, true, d.state, Null, at)] + NewDriveEvents(d, at)
  }

  function Baseline(current: seq<VirtualDrive>, at: int): seq<Event> {
    if current == [] then [] else Baseline(current[..|current| - 1], at) + NewDriveEvents(current[|current| - 1], at)
  }

  function Changes(previous: seq<VirtualDrive>, current: seq<VirtualDrive>, at: int): seq<Event> {
    if previous == [] then [] else
      var last := previous[|previous| - 1];
      Changes(previous[..|previous| - 1], current, at) + ChangeEvents(last, StateOf(current, last.subject), at)
  }

  function Finds(previous: seq<VirtualDrive>, current: seq<VirtualDrive>, at: int): seq<Event> {
    if current == [] then [] else
      var last := current[|current| - 1];
      Finds(previous, current[..|current| - 1], at)
      + if StateOf(previous, last.subject).Some? then [] else FoundEvents(last, at)
  }

  /** Every array event of one poll. */
  function Detected(previous: Option<seq<VirtualDrive>>, current: seq<VirtualDrive>, at: int): seq<Event> {
    if previous.None? then Baseline(current, at)
    else Changes(previous.value, current, at) + Finds(previous.value, current, at)
  }

  method DetectBaseline(current: seq<VirtualDrive>, at: int) returns (events: seq<Event>)
    ensures events == Detected(None, current, at)
  {
    events := [];
    for i := 0 to |current|
      invariant events == Baseline(current[..i], at)
    {
      assert current[..i + 1][..i] == current[..i];
      events := events + NewDriveEvents(current[i], at);
    }
    assert current[..|current|] == current;
  }

  method DetectVirtualDrives(previous: seq<VirtualDrive>, current: seq<VirtualDrive>, at: int)
    returns (events: seq<Event>)
    ensures events == Detected(Some(previous), current, at)
  {
    hide StateOf, PresenceEvent, NewDriveEvents;
    var changes := DetectChanges(previous, current, at);
    events := changes;
    for i := 0 to |current|
      invariant events == changes + Finds(previous, current[..i], at)
    {
      assert current[..i + 1][..i] == current[..i];
      var d := current[i];
      if StateOf(previous, d.subject).Some? {
        continue;
      }
      events := events + [PresenceEvent(d.subject, true, d.state, Null, at)] + NewDriveEvents(d, at);
    }
    assert current[..|current|] == current;
  }

  method DetectChanges(previous: seq<VirtualDrive>, current: seq<VirtualDrive>, at: int) returns (events: seq<Event>)
    ensures events == Changes(previous, current, at)
  {
    events := [];
    for i := 0 to |previous|
      invariant events == Changes(previous[..i], current, at)
    {
      assert previous[..i + 1][..i] == previous[..i];
      var d := previous[i];
      var now := StateOf(current, d.subject);
      if now.None? {
        events := events + [PresenceEvent(d.subject, false, "Offline", Text(d.state), at)];
        continue;
      }
      if NormalizedState(d.state) == NormalizedState(now.value) {
        continue;
      }
      events := events + [StateEvent(d.subject, map["state" := Text(d.state)], now.value, at)];
    }
    assert previous[..|previous|] == previous;
  }

  // ------------------------------------------------------------- the events of one drive

  predicate IsAbout(e: Event, v: string) {
    e.category == "vd_state" && e.subject == v
  }

  function Concerns(v: string): Event -> bool {
    (e: Event) => IsAbout(e, v)
  }

  function About(log: seq<Event>, v: string): seq<Event> {
    Filter(log, Concerns(v))
  }

  lemma AboutConcat(a: seq<Event>, b: seq<Event>, v: string)
    ensures About(a + b, v) == About(a, v) + About(b, v)
  {
    FilterConcat(a, b, Concerns(v));
  }

  /** An inventory lists every drive once. */
  ghost predicate Inventory(drives: seq<VirtualDrive>) {
    forall i, j :: 0 <= i < j < |drives| ==> drives[i].subject != drives[j].subject
  }

  lemma {:induction false} StateOfLast(drives: seq<VirtualDrive>, v: string)
    requires drives != [] && Inventory(drives)
    ensures StateOf(drives, v) == if drives[|drives| - 1].subject == v then Some(drives[|drives| - 1].state)
                                  else StateOf(drives[..|drives| - 1], v)
    ensures drives[|drives| - 1].subject == v ==> StateOf(drives[..|drives| - 1], v).None?
  {
    if |drives| == 1 {
    } else {
      StateOfLast(drives[1..], v);
      assert drives[1..][..|drives| - 2] == drives[..|drives| - 1][1..];
    }
  }

  /** What a poll records about one drive, given its state before and after. */
  function Recorded(v: string, before: Option<Option<string>>, after: Option<string>, at: int): seq<Event> {
    if before.None? then (if after.Some? then NewDriveEvents(VirtualDrive(v, after.value), at) else [])
    else if before.value.Some? then ChangeEvents(VirtualDrive(v, before.value.value), after, at)
    else if after.Some? then FoundEvents(VirtualDrive(v, after.value), at)
    else []
  }

  lemma AboutOneDrive(events: seq<Event>, v: string, w: string)
    requires forall e :: e in events ==> IsAbout(e, w)
    ensures About(events, v) == if v == w then events else []
  {
    if v == w {
      FilterAll(events, Concerns(v));
    } else {
      FilterNone(events, Concerns(v));
    }
  }

  lemma NewAbout(d: VirtualDrive, v: string, at: int)
    ensures About(NewDriveEvents(d, at), v) == if v == d.subject then NewDriveEvents(d, at) else []
  {
  }

  lemma ChangeAbout(d: VirtualDrive, current: Option<string>, v: string, at: int)
    ensures About(ChangeEvents(d, current, at), v) == if v == d.subject then ChangeEvents(d, current, at) else []
  {
  }

  lemma FoundAbout(d: VirtualDrive, v: string, at: int)
    ensures About(FoundEvents(d, at), v) == if v == d.subject then FoundEvents(d, at) else []
  {
    AboutOneDrive(FoundEvents(d, at), v, d.subject);
  }

  lemma {:induction false} BaselineAbout(current: seq<VirtualDrive>, v: string, at: int)
    requires Inventory(current)
    ensures About(Baseline(current, at), v) == Recorded(v, None, StateOf(current, v), at)
  {
    if current == [] {
    } else {
      var front, last := current[..|current| - 1], current[|current| - 1];
      BaselineAbout(front, v, at);
      StateOfLast(current, v);
      AboutConcat(Baseline(front, at), NewDriveEvents(last, at), v);
      NewAbout(last, v, at);
    }
  }

  lemma {:induction false} ChangesAbout(previous: seq<VirtualDrive>, current: seq<VirtualDrive>, v: string, at: int)
    requires Inventory(previous)
    ensures About(Changes(previous, current, at), v) ==
            var before := StateOf(previous, v);
            if before.Some? then ChangeEvents(VirtualDrive(v, before.value), StateOf(current, v), at) else []
  {
    if previous == [] {
    } else {
      var front, last := previous[..|previous| - 1], previous[|previous| - 1];
      ChangesAbout(front, current, v, at);
      StateOfLast(previous, v);
      AboutConcat(Changes(front, current, at), ChangeEvents(last, StateOf(current, last.subject), at), v);
      ChangeAbout(last, StateOf(current, last.subject), v, at);
    }
  }

  lemma {:induction false} FindsAbout(previous: seq<VirtualDrive>, current: seq<VirtualDrive>, v: string, at: int)
    requires Inventory(current)
    ensures About(Finds(previous, current, at), v) ==
            var after := StateOf(current, v);
            if after.Some? && StateOf(previous, v).None? then FoundEvents(VirtualDrive(v, after.value), at) else []
  {
    if current == [] {
    } else {
      var front, last := current[..|current| - 1], current[|current| - 1];
      FindsAbout(previous, front, v, at);
      StateOfLast(current, v);
      FoundAbout(last, v, at);
      AboutConcat(Finds(previous, front, at),
                  if StateOf(previous, last.subject).Some? then [] else FoundEvents(last, at), v);
    }
  }

  function StateIn(drives: Option<seq<VirtualDrive>>, v: string): Option<Option<string>> {
    if drives.None? then None else Some(StateOf(drives.value, v))
  }

  /** One poll, seen from one drive, whatever happens to the others. */
  lemma DetectedAbout(previous: Option<seq<VirtualDrive>>, current: seq<VirtualDrive>, v: string, at: int)
    requires Inventory(current) && (previous.Some? ==> Inventory(previous.value))
    ensures About(Detected(previous, current, at), v) == Recorded(v, StateIn(previous, v), StateOf(current, v), at)
  {
    if previous.None? {
      BaselineAbout(current, v, at);
    } else {
      ChangesAbout(previous.value, current, v, at);
      FindsAbout(previous.value, current, v, at);
      AboutConcat(Changes(previous.value, current, at), Finds(previous.value, current, at), v);
    }
  }
}
