/**
 * Drive temperature alerts: a three-level machine with hysteresis whose level is persisted per
 * disk, across replacements, missing readings and restarts.
 */
module Hysteresis {
  import opened Prelude

  datatype Level = Normal | Warning | Critical

  function Rank(l: Level): nat {
    match l
    case Normal => 0
    case Warning => 1
    case Critical => 2
  }

  /** The configuration validator accepts no other thresholds. */
  datatype Thresholds = Thresholds(warning: int, critical: int, hysteresis: int) {
    predicate Valid() {
      critical > warning && hysteresis >= 1
    }
  }

  datatype Severity = Info | WarningSeverity | CriticalSeverity

  datatype TempEvent = TempEvent(severity: Severity, before: Level, after: Level)

  /** The readings at which a level may persist. */
  predicate Band(l: Level, t: int, c: Thresholds) {
    match l
    case Normal => t < c.warning
    case Warning => c.warning - c.hysteresis <= t < c.critical
    case Critical => c.critical - c.hysteresis <= t
  }

  /** Where a reading takes a level. */
  function Settled(l: Level, t: int, c: Thresholds): Level {
    if Band(l, t, c) then l
    else if t >= c.critical then Critical
    else if t < c.warning - c.hysteresis then Normal
    else Warning
  }

  lemma SettledLevelFitsItsReading(l: Level, t: int, c: Thresholds)
    requires c.Valid()
    ensures Band(Settled(l, t, c), t, c)
  {
  }

  /** Moving by one level up or down, the way every single event does. */
  function Toward(from: Level, to: Level): TempEvent
    requires from != to
  {
    match from
    case Normal => TempEvent(WarningSeverity, Normal, Warning)
    case Critical => TempEvent(Info, Critical, Warning)
    case Warning =>
      if to.Critical? then TempEvent(CriticalSeverity, Warning, Critical) else TempEvent(Info, Warning, Normal)
  }

  function Distance(from: Level, to: Level): nat {
    if Rank(from) <= Rank(to) then Rank(to) - Rank(from) else Rank(from) - Rank(to)
  }

  /** The shortest chain of single-level events between two levels. */
  function Path(from: Level, to: Level): (events: seq<TempEvent>)
    ensures |events| == Distance(from, to) <= 2
    decreases Distance(from, to)
  {
    if from == to then [] else [Toward(from, to)] + Path(Toward(from, to).after, to)
  }

  /** Events of a path chain: each starts at the level where the one before it ended. */
  lemma {:induction false} PathIsAChain(from: Level, to: Level, i: nat)
    requires i < |Path(from, to)|
    ensures Path(from, to)[i].before == if i == 0 then from else Path(from, to)[i - 1].after
    ensures i == |Path(from, to)| - 1 ==> Path(from, to)[i].after == to
    ensures Distance(Path(from, to)[i].before, Path(from, to)[i].after) == 1
    decreases i
  {
  }

  lemma {:induction false} PathExtends(from: Level, mid: Level, to: Level)
    requires mid != to && Distance(from, mid) + Distance(mid, to) == Distance(from, to)
    ensures Path(from, mid) + [Toward(mid, to)] == Path(from, Toward(mid, to).after)
    ensures Distance(from, Toward(mid, to).after) + Distance(Toward(mid, to).after, to) == Distance(from, to)
    decreases Distance(from, mid)
  {
  }

  /** The loop of the detector: it ends after at most two events, in the band of the reading. */
  method Transitions(reading: Option<int>, initial: Level, c: Thresholds) returns (events: seq<TempEvent>, level: Level)
    requires c.Valid()
    ensures reading.None? ==> events == [] && level == initial
    ensures reading.Some? ==> level == Settled(initial, reading.value, c) && Band(level, reading.value, c)
    ensures events == Path(initial, level) && |events| <= 2
  {
    level, events := initial, [];
    if reading.None? {
      return;
    }
    var t := reading.value;
    ghost var goal := Settled(initial, t, c);
    while true
      invariant events == Path(initial, level)
      invariant Settled(level, t, c) == goal
      invariant Distance(initial, level) + Distance(level, goal) == Distance(initial, goal)
      decreases Distance(level, goal)
    {
      if level.Normal? && t >= c.warning {
        PathExtends(initial, level, goal);
        events := events + [TempEvent(WarningSeverity, level, Warning)];
        level := Warning;
        continue;
      }
      if level.Warning? && t >= c.critical {
        PathExtends(initial, level, goal);
        events := events + [TempEvent(CriticalSeverity, level, Critical)];
        level := Critical;
        continue;
      }
      if level.Critical? && t < c.critical - c.hysteresis {
        PathExtends(initial, level, goal);
        events := events + [TempEvent(Info, level, Warning)];
        level := Warning;
        continue;
      }
      if level.Warning? && t < c.warning - c.hysteresis {
        PathExtends(initial, level, goal);
        events := events + [TempEvent(Info, level, Normal)];
        level := Normal;
        continue;
      }
      return;
    }
  }

  // ------------------------------------------------------------- relevance of a queued alert

  datatype Relevance = Active | Obsolete | AwaitingTemperature

  function LevelOf(s: Severity): Level {
    if s.CriticalSeverity? then Critical else Warning
  }

  /** Whether the current reading still supports a queued warning or critical alert. */
  function TemperatureRelevance(reading: Option<int>, s: Severity, c: Thresholds, clearAtBoundary: bool): Relevance {
    if reading.None? then AwaitingTemperature else
      var boundary := (if s.CriticalSeverity? then c.critical else c.warning) - c.hysteresis;
      var above := if clearAtBoundary then reading.value > boundary else reading.value >= boundary;
      if above && (s.CriticalSeverity? || reading.value < c.critical) then Active else Obsolete
  }

  /** For drives, a queued alert is active exactly when its level may persist at the reading. */
  lemma RelevanceIsTheBand(t: int, s: Severity, c: Thresholds)
    requires c.Valid() && !s.Info?
    ensures TemperatureRelevance(Some(t), s, c, false) == Active <==> Band(LevelOf(s), t, c)
  {
  }

  // ------------------------------------------------------------- one disk over many readings

  /** The level that a sequence of polls leads to, some of them without a reading. */
  function LevelAfter(from: Level, readings: seq<Option<int>>, c: Thresholds): Level {
    if readings == [] then from else
      var before, last := LevelAfter(from, readings[..|readings| - 1], c), readings[|readings| - 1];
      if last.None? then before else Settled(before, last.value, c)
  }

  /** The events of the poll at index `i`. */
  function EventsAt(from: Level, readings: seq<Option<int>>, i: nat, c: Thresholds): seq<TempEvent>
    requires i < |readings|
  {
    Path(LevelAfter(from, readings[..i], c), LevelAfter(from, readings[..i + 1], c))
  }

  lemma LevelStep(from: Level, readings: seq<Option<int>>, i: nat, c: Thresholds)
    requires i < |readings|
    ensures LevelAfter(from, readings[..i + 1], c) ==
            var before := LevelAfter(from, readings[..i], c);
            if readings[i].None? then before else Settled(before, readings[i].value, c)
  {
    assert readings[..i + 1][..i] == readings[..i];
  }

  predicate RaisesWarning(events: seq<TempEvent>) {
    TempEvent(WarningSeverity, Normal, Warning) in events
  }

  /** The poll at index `i` takes a disk out of the normal level. */
  predicate Rises(from: Level, readings: seq<Option<int>>, i: nat, c: Thresholds)
    requires i < |readings|
  {
    LevelAfter(from, readings[..i], c).Normal? && !LevelAfter(from, readings[..i + 1], c).Normal?
  }

  lemma WarningStartsFromNormal(before: Level, after: Level)
    ensures RaisesWarning(Path(before, after)) ==> before.Normal? && !after.Normal?
  {
  }

  /** A reading that clears a warning. */
  predicate Below(reading: Option<int>, c: Thresholds) {
    reading.Some? && reading.value < c.warning - c.hysteresis
  }

  /** While no reading falls below the clear boundary, a raised level never returns to normal. */
  lemma {:induction false} RaisedUntilBelowBoundary(from: Level, readings: seq<Option<int>>, i: nat, j: nat,
                                                    c: Thresholds)
    requires c.Valid() && i <= j <= |readings| && !LevelAfter(from, readings[..i], c).Normal?
    requires forall k :: i <= k < j ==> !Below(readings[k], c)
    ensures !LevelAfter(from, readings[..j], c).Normal?
    decreases j - i
  {
    if i == j {
    } else {
      LevelStep(from, readings, i, c);
      RaisedUntilBelowBoundary(from, readings, i + 1, j, c);
    }
  }

  lemma RisesAreSeparated(from: Level, readings: seq<Option<int>>, i: nat, j: nat, c: Thresholds)
    requires c.Valid() && i < j < |readings| && Rises(from, readings, i, c) && Rises(from, readings, j, c)
    ensures exists k :: i < k < j && Below(readings[k], c)
  {
    if forall k :: i < k < j ==> !Below(readings[k], c) {
      RaisedUntilBelowBoundary(from, readings, i + 1, j, c);
    }
  }

  /** Two warnings over the same readings are separated by a reading below the clear boundary. */
  lemma WarningsAreSeparated(from: Level, readings: seq<Option<int>>, i: nat, j: nat, c: Thresholds)
    requires c.Valid() && i < j < |readings|
    requires RaisesWarning(EventsAt(from, readings, i, c)) && RaisesWarning(EventsAt(from, readings, j, c))
    ensures exists k :: i < k < j && Below(readings[k], c)
  {
    WarningStartsFromNormal(LevelAfter(from, readings[..i], c), LevelAfter(from, readings[..i + 1], c));
    WarningStartsFromNormal(LevelAfter(from, readings[..j], c), LevelAfter(from, readings[..j + 1], c));
    RisesAreSeparated(from, readings, i, j, c);
  }
}
