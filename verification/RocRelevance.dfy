/**
 * Controller temperature alerts end to end: what the delivery and the duplicate check conclude from the
 * two stored times and the pruned snapshots is what they would conclude from every reading ever taken.
 */
module RocRelevance {
  import opened Incidents
  import opened Relevance
  import opened RocRecovery

  /** The saved bookkeeping of a run of polls and pruning; readings are not from the future. */
  ghost predicate SavedBy(saved: Saved, steps: seq<Step>, now: int, c: Settings) {
    var e := Run(steps, c.roc);
    && saved.cleared == e.cleared && Readings(saved.snapshots) == e.kept
    && (forall r :: r in e.history ==> r.at <= now)
  }

  predicate IsRocAlert(e: Event) {
    e.category == "controller_temperature" && !e.severity.Info?
  }

  /** A clear of the incident in the history that was never pruned. */
  ghost predicate ClearedInHistory(steps: seq<Step>, e: Event, until: int, c: Settings) {
    ClearedBetween(Run(steps, c.roc).history, e.occurredAt, until, GaugeOf(e.severity), c.roc)
  }

  lemma SameAnswer(saved: Saved, steps: seq<Step>, e: Event, until: int, now: int, c: Settings)
    requires SavedBy(saved, steps, now, c) && IsRocAlert(e)
    ensures TemperatureRecovered(saved, e, until, c) <==>
            Recovered(Run(steps, c.roc), e.occurredAt, until, GaugeOf(e.severity), c.roc)
  {
  }

  /** Relevance: the incident counts as recovered exactly when some reading up to now cleared it. */
  lemma RelevanceSeesEveryClear(saved: Saved, steps: seq<Step>, id: nat, now: int, c: Settings)
    requires SavedBy(saved, steps, now, c) && id < |saved.log| && IsRocAlert(saved.log[id])
    ensures TemperatureRecovered(saved, saved.log[id], now, c) <==> ClearedInHistory(steps, saved.log[id], now, c)
  {
    SameAnswer(saved, steps, saved.log[id], now, now, c);
    RecoveredAsOfNow(steps, saved.log[id].occurredAt, now, GaugeOf(saved.log[id].severity), c.roc);
  }

  /**
   * Duplicates: for an event that passed the relevance check, an older message of the same incident
   * still speaks for it exactly when neither the log nor any reading ever taken ended that incident.
   */
  lemma DuplicateCheckSeesEveryClear(saved: Saved, steps: seq<Step>, other: nat, id: nat, now: int, c: Settings)
    requires SavedBy(saved, steps, now, c) && other < |saved.log| && id < |saved.log| && IsRocAlert(saved.log[id])
    requires DeliveryRelevance(saved, id, now, c) == Current
    ensures var e := saved.log[id];
      Repeats(saved, other, id, c) <==>
        && other != id && SameIncident(saved, other, id)
        && !EndedInLog(saved.log, other, id + 1, e.occurredAt)
        && !ClearedInHistory(steps, saved.log[other], e.occurredAt, c)
  {
    var e, o := saved.log[id], saved.log[other];
    SameAnswer(saved, steps, e, now, now, c);
    if SameIncident(saved, other, id) {
      SameAnswer(saved, steps, o, e.occurredAt, now, c);
      RecoveredAsOfALiveEvent(steps, o.occurredAt, e.occurredAt, now, GaugeOf(e.severity), c.roc);
    }
  }
}
