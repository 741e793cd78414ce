/** Whether saved, fresh collector data still supports a queued alert. */
module Relevance {
  import opened Prelude
  import opened Incidents
  import opened States
  import Hysteresis

  const FAILED_PREFIX := "Collection failed:"

  function Freshness(c: Settings): int {
    Max(60, 2 * c.pollSeconds)
  }

  /** A failed poll is a durable event and outdates the snapshot before it. */
  predicate FailedSince(log: seq<Event>, since: int, now: int) {
    exists i :: 0 <= i < |log| && log[i].category == "system" && FAILED_PREFIX <= log[i].summary
                && since <= log[i].occurredAt <= now
  }

  function Digits(n: nat): string {
    (if n < 10 then "" else Digits(n / 10)) + [('0' as int + n % 10) as char]
  }

  function Decimal(n: int): string {
    if n < 0 then "-" + Digits(-n) else Digits(n)
  }

  /** How a missing or non-text field prints when it is compared with a state. */
  function Printed(after: Fields, field: string): string {
    if field !in after then "None" else
      match after[field]
      case Text(t) => t
      case Flag(b) => if b then "True" else "False"
      case Number(n) => Decimal(n)
      case Null => "None"
  }

  predicate SaysAbsent(after: Fields) {
    "present" in after && after["present"] == Flag(false)
  }

  /** Booleans and the integers one and zero compare equal. */
  predicate EqualsFlag(v: Value, b: bool) {
    v == Flag(b) || v == Number(if b then 1 else 0)
  }

  function Stands(holds: bool): Relevance {
    if holds then Current else Over
  }

  function OfTemperature(r: Hysteresis.Relevance): Relevance {
    match r
    case Active => Current
    case Obsolete => Over
    case AwaitingTemperature => Unknown
  }

  function HysteresisSeverity(s: Severity): Hysteresis.Severity {
    match s
    case Critical => Hysteresis.CriticalSeverity
    case Warning => Hysteresis.WarningSeverity
    case Info => Hysteresis.Info
  }

  function RocThresholds(c: Settings): Hysteresis.Thresholds {
    Hysteresis.Thresholds(c.roc.warning, c.roc.critical, c.roc.hysteresis)
  }

  function VirtualDriveRelevance(e: Event, s: Snapshot): Relevance {
    if !("state" in e.after && e.after["state"].Text?) then Unknown else
      var state, drive := NormalizedState(e.after["state"].text), StateOf(s.virtualDrives, e.subject);
      if drive.None? then Stands(state == "offline")
      else Stands(!SaysAbsent(e.after) && NormalizedState(drive.value) == state)
  }

  /** Presence, state and the replacement flag of a CacheVault are independent incidents. */
  function CacheVaultRelevance(e: Event, s: Snapshot): Relevance {
    if s.cachevault.None? && s.cvPresent then Unknown
    else if "present" in e.after then Stands(EqualsFlag(e.after["present"], s.cachevault.Some?))
    else if s.cachevault.None? then Over
    else if "state" in e.after then
      Stands(NormalizedState(s.cachevault.value.state) == NormalizedState(Printed(e.after, "state")))
    else
      Stands(&& s.cachevault.value.replacementRequired
             && "replacement_required" in e.after && e.after["replacement_required"] == Flag(true))
  }

  /** A counter alert stands while the counter is at least what was reported, and not zero. */
  function CounterRelevance(e: Event, counter: int): Relevance {
    if e.category !in e.after then Unknown else
      match e.after[e.category]
      case Number(n) => Stands(counter >= Max(1, n))
      case Flag(_) => Stands(counter >= 1)
      case _ => Unknown
  }

  predicate LevelIs(level: Hysteresis.Level, s: Severity) {
    (level.Warning? && s.Warning?) || (level.Critical? && s.Critical?)
  }

  function DriveTemperatureRelevance(saved: Saved, e: Event, drive: Drive, c: Settings): Relevance {
    var key := (e.subject, drive.serial);
    if key in saved.levels && !LevelIs(saved.levels[key], e.severity) then Over
    else OfTemperature(
           Hysteresis.TemperatureRelevance(drive.temperature, HysteresisSeverity(e.severity), c.drive, false))
  }

  function SkipDigits(s: string): (rest: string)
    ensures |rest| <= |s|
  {
    if s != "" && '0' <= s[0] <= '9' then SkipDigits(s[1..]) else s
  }

  /**
   * While the stored level of a disk fits its reading, as the collector keeps it, a temperature alert
   * of that disk stands exactly when its severity is the stored level.
   */
  lemma TemperatureAlertStandsAtItsLevel(saved: Saved, e: Event, drive: Drive, c: Settings)
    requires c.drive.Valid() && !e.severity.Info? && drive.temperature.Some?
    requires (e.subject, drive.serial) in saved.levels
    requires Hysteresis.Band(saved.levels[(e.subject, drive.serial)], drive.temperature.value, c.drive)
    ensures DriveTemperatureRelevance(saved, e, drive, c) == Current <==>
            LevelIs(saved.levels[(e.subject, drive.serial)], e.severity)
  {
  }

  /** "PD e", an enclosure number, ":s", a slot number. */
  predicate IsDriveSubject(s: string) {
    && "PD e" <= s
    && var rest := SkipDigits(s[4..]);
       |rest| < |s| - 4 && |rest| > 2 && ":s" <= rest && SkipDigits(rest[2..]) == ""
  }

  /** Alerts of a slot are about the disk they were recorded for, not about the disk that is there now. */
  function DriveRelevance(saved: Saved, e: Event, s: Snapshot, c: Settings): Relevance {
    var serial := DriveSerialAt(saved, e);
    if !IsDriveSubject(e.subject) then Unknown
    else if e.subject !in s.drives then
      if e.category == "pd_state" && NormalizedState(Printed(e.after, "state")) == "missing"
      then if serial.Some? then Current else Unknown
      else Over
    else
      var drive := s.drives[e.subject];
      if serial.None? || drive.serial == "" then Unknown
      else if drive.serial != serial.value then Over
      else if e.category == "temperature" then DriveTemperatureRelevance(saved, e, drive, c)
      else if e.category == "pd_state" then
        Stands(!SaysAbsent(e.after) && NormalizedState(drive.state) == NormalizedState(Printed(e.after, "state")))
      else if e.category == "smart_alert" then Stands(drive.smartAlert)
      else CounterRelevance(e, if e.category == "media_errors" then drive.mediaErrors else drive.predictiveFailures)
  }

  /** The question behind every delivery. */
  function DeliveryRelevance(saved: Saved, id: nat, now: int, c: Settings): Relevance
    requires id < |saved.log|
  {
    var e, s := saved.log[id], LatestAt(saved.snapshots, now);
    if e.category == "system" then Stands(s.None? || s.value.at < e.occurredAt)
    else if s.None? || s.value.at < now - Freshness(c) || FailedSince(saved.log, s.value.at, now) then Unknown
    else if IncidentSuperseded(saved, id, |saved.log|, now, c) then Over
    else if e.category == "controller_temperature" then
      OfTemperature(
        Hysteresis.TemperatureRelevance(s.value.roc, HysteresisSeverity(e.severity), RocThresholds(c), true))
    else if e.category == "vd_state" then VirtualDriveRelevance(e, s.value)
    else if e.category == "cv_state" then CacheVaultRelevance(e, s.value)
    else DriveRelevance(saved, e, s.value, c)
  }
}
