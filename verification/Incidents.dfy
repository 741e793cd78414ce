/** Events of the log, the incident each one belongs to, and when an incident is over. */
module Incidents {
  import opened Prelude
  import opened RocRecovery
  import opened States
  import Hysteresis

  datatype Severity = Info | Warning | Critical

  /** The answer to "does this incident still stand": yes, no, or ask again with fresher data. */
  datatype Relevance = Current | Over | Unknown

  /** A JSON scalar. */
  datatype Value = Text(text: string) | Flag(flag: bool) | Number(number: int) | Null

  type Fields = map<string, Value>

  /** An absent JSON object reads as an empty one. An event's id is its index in the log. */
  datatype Event = Event(severity: Severity, category: string, subject: string, summary: string, occurredAt: int,
                         before: Fields, after: Fields)

  datatype CacheVault = CacheVault(state: string, replacementRequired: bool)

  datatype Drive = Drive(serial: string, state: string, temperature: Option<int>, smartAlert: bool,
                         mediaErrors: int, predictiveFailures: int)

  /** Virtual and physical drives are known by the subjects of their events. */
  datatype VirtualDrive = VirtualDrive(subject: string, state: string)

  datatype Snapshot = Snapshot(at: int, roc: Option<int>, cvPresent: bool, cachevault: Option<CacheVault>,
                               virtualDrives: seq<VirtualDrive>, drives: map<string, Drive>)

  /** The state of a virtual drive in an inventory. */
  function StateOf(drives: seq<VirtualDrive>, subject: string): Option<string> {
    if drives == [] then None
    else if drives[0].subject == subject then Some(drives[0].state)
    else StateOf(drives[1..], subject)
  }

  /** What a delivery cycle reads: the event log, the retained snapshots and the collector's bookkeeping. */
  datatype Saved = Saved(log: seq<Event>, snapshots: seq<Snapshot>, cleared: map<Gauge, int>,
                         levels: map<(string, string), Hysteresis.Level>)

  datatype Settings = Settings(roc: Limits, drive: Hysteresis.Thresholds, pollSeconds: int)

  const SERIAL := "serial_number"

  predicate IsMonitoringOutage(e: Event) {
    && e.category == "system"
    && e.subject == "Controller"
    && "monitoring_outage" in e.after
    && e.after["monitoring_outage"] == Flag(true)
  }

  const CRITICAL_CATEGORIES := {"vd_state", "pd_state", "media_errors", "predictive_failures", "smart_alert",
                                "cv_state", "temperature", "controller_temperature", "system"}
  const WARNING_CATEGORIES := {"temperature", "controller_temperature"}

  predicate IsTelegramAlert(e: Event) {
    match e.severity
    case Critical => if e.category == "system" then IsMonitoringOutage(e) else e.category in CRITICAL_CATEGORIES
    case Warning => e.category in WARNING_CATEGORIES
    case Info => false
  }

  /** The JSON type of a field, as the database names it. */
  function JsonType(fields: Fields, name: string): Option<string> {
    if name !in fields then None else
      match fields[name]
      case Flag(b) => Some(if b then "true" else "false")
      case Text(_) => Some("text")
      case Number(_) => Some("integer")
      case Null => Some("null")
  }

  /** The policy once more, as the filter of the database query. */
  predicate SelectedForTelegram(e: Event) {
    || (&& e.severity.Critical?
        && e.category in CRITICAL_CATEGORIES
        && (|| e.category != "system"
            || (e.subject == "Controller" && JsonType(e.after, "monitoring_outage") == Some("true"))))
    || (e.severity.Warning? && e.category in WARNING_CATEGORIES)
  }

  /** The query selects exactly the alerts of the policy: no alert is missed, nothing else takes its place. */
  lemma SelectionIsThePolicy(e: Event)
    ensures SelectedForTelegram(e) <==> IsTelegramAlert(e)
  {
  }

  function IncidentState(e: Event): Option<string> {
    if "state" in e.after && e.after["state"].Text? then Some(NormalizedState(e.after["state"].text)) else None
  }

  function KeyValue(v: Value): Value {
    if v.Text? || v.Flag? then v else Null
  }

  /** The object state names the incident when there is one; counters keep only their name. */
  function IncidentKey(e: Event): Fields {
    var state := IncidentState(e);
    if state.Some? then map["state" := Text(state.value)]
    else map k | k in e.after && k != SERIAL :: KeyValue(e.after[k])
  }

  /** A growing counter, and another spelling of the same state, stay the same incident. */
  lemma KeyIgnoresCountersAndSpelling(e: Event, o: Event)
    requires e.after.Keys == o.after.Keys
    requires forall k :: k in e.after && k != SERIAL ==>
               || e.after[k] == o.after[k]
               || (e.after[k].Number? && o.after[k].Number?)
               || (&& k == "state" && e.after[k].Text? && o.after[k].Text?
                   && NormalizedState(e.after[k].text) == NormalizedState(o.after[k].text))
    ensures IncidentKey(e) == IncidentKey(o)
  {
  }

  function LatestAt(snapshots: seq<Snapshot>, t: int): Option<Snapshot> {
    if snapshots == [] then None else
      var best, last := LatestAt(snapshots[..|snapshots| - 1], t), snapshots[|snapshots| - 1];
      if last.at <= t && (best.None? || last.at >= best.value.at) then Some(last) else best
  }

  function NonEmpty(s: string): Option<string> {
    if s == "" then None else Some(s)
  }

  /** The disk an event is about: recorded with it, or read from the snapshot of its time. */
  function DriveSerialAt(saved: Saved, e: Event): Option<string> {
    if SERIAL in e.after && e.after[SERIAL].Text? then NonEmpty(e.after[SERIAL].text) else
      var snapshot := LatestAt(saved.snapshots, e.occurredAt);
      if snapshot.None? || e.subject !in snapshot.value.drives then None
      else NonEmpty(snapshot.value.drives[e.subject].serial)
  }

  function FlagField(category: string): Option<string> {
    if category == "smart_alert" then Some("smart_alert")
    else if category == "cv_state" then Some("replacement_required")
    else None
  }

  /** A recorded false-to-true edge proves that the flag was clear in between. */
  predicate FlagIncidentStarted(e: Event) {
    var field := FlagField(e.category);
    && field.Some?
    && field.value in e.before && e.before[field.value] == Flag(false)
    && field.value in e.after && e.after[field.value] == Flag(true)
  }

  function SerialField(e: Event): Option<Value> {
    if SERIAL in e.after then Some(e.after[SERIAL]) else None
  }

  /** Whether a later event about the same object ends an incident. */
  predicate Ends(e: Event, later: Event, until: int) {
    && later.category == e.category
    && later.subject == e.subject
    && later.occurredAt <= until
    && (exists k :: k in e.after && k != SERIAL && k in later.after)
    && (|| later.severity != e.severity
        || IncidentKey(later) != IncidentKey(e)
        || FlagIncidentStarted(later)
        || (e.category == "pd_state" && SerialField(later) != SerialField(e)))
  }

  function GaugeOf(s: Severity): Gauge {
    if s.Critical? then CriticalGauge else WarningGauge
  }

  function Readings(snapshots: seq<Snapshot>): seq<Reading> {
    seq(|snapshots|, i requires 0 <= i < |snapshots| => Reading(snapshots[i].at, snapshots[i].roc))
  }

  predicate TemperatureRecovered(saved: Saved, e: Event, until: int, c: Settings) {
    && e.category == "controller_temperature"
    && !e.severity.Info?
    && Recovered(Evidence(saved.cleared, Readings(saved.snapshots), []), e.occurredAt, until, GaugeOf(e.severity),
                 c.roc)
  }

  predicate EndedInLog(log: seq<Event>, id: nat, bound: nat, until: int)
    requires id < |log|
  {
    exists j :: id < j < bound && j < |log| && Ends(log[id], log[j], until)
  }

  /** An incident is over by `until`, judged by the events below `bound` and the recovery evidence. */
  predicate IncidentSuperseded(saved: Saved, id: nat, bound: nat, until: int, c: Settings)
    requires id < |saved.log|
  {
    EndedInLog(saved.log, id, bound, until) || TemperatureRecovered(saved, saved.log[id], until, c)
  }

  /** Two events a reader would call the same incident of the same object. */
  predicate SameIncident(saved: Saved, a: nat, b: nat)
    requires a < |saved.log| && b < |saved.log|
  {
    var x, y := saved.log[a], saved.log[b];
    && x.severity == y.severity && x.category == y.category && x.subject == y.subject
    && IncidentKey(x) == IncidentKey(y)
    && DriveSerialAt(saved, x) == DriveSerialAt(saved, y)
  }

  /** `other` still speaks for `id`: the same incident, not over when `id` occurred. */
  predicate Repeats(saved: Saved, other: nat, id: nat, c: Settings)
    requires other < |saved.log| && id < |saved.log|
  {
    && other != id
    && SameIncident(saved, other, id)
    && !IncidentSuperseded(saved, other, id + 1, saved.log[id].occurredAt, c)
  }

  /** A temperature warning that cleared or got worse is not sent any more. */
  predicate WarningHasEnded(log: seq<Event>, id: nat)
    requires id < |log|
  {
    exists j :: id < j < |log| && log[j].category == log[id].category && log[j].subject == log[id].subject
                && !log[j].severity.Warning?
  }

  predicate InTimeOrder(log: seq<Event>) {
    forall i, j :: 0 <= i < j < |log| ==> log[i].occurredAt <= log[j].occurredAt
  }

  /** An incident that was over when an event occurred began before that event. */
  lemma SupersededMeansOlder(saved: Saved, other: nat, id: nat, c: Settings)
    requires other < |saved.log| && id < |saved.log| && other != id && InTimeOrder(saved.log)
    requires IncidentSuperseded(saved, other, id + 1, saved.log[id].occurredAt, c)
    ensures other < id
  {
  }
}
