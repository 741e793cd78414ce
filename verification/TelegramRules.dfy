/** The outbox under the rules the service uses: what a sent message says about the saved data. */
module TelegramRules {
  import opened Prelude
  import opened Incidents
  import opened Relevance
  import opened Outbox
  import opened OutboxRuns
  import opened OutboxDelivery

  function ServiceRules(confirm: nat, c: Settings): Rules {
    Rules(confirm,
          (e: Event) => SelectedForTelegram(e),
          (s: Saved, id: nat) => id < |s.log| && WarningHasEnded(s.log, id),
          (s: Saved, id: nat, now: int) => if id < |s.log| then DeliveryRelevance(s, id, now, c) else Unknown,
          (s: Saved, other: nat, id: nat) => other < |s.log| && id < |s.log| && Repeats(s, other, id, c))
  }

  lemma {:induction false} LogsAreInTimeOrder(trace: seq<Mark>, saved: Saved, r: Rules)
    requires Legal(trace, saved, r)
    ensures InTimeOrder(Replay(trace, saved, r).saved.log)
  {
    if trace == [] {
      assert Replay(trace, saved, r) == Empty(saved);
    } else {
      LogsAreInTimeOrder(trace[..|trace| - 1], saved, r);
    }
  }

  /** The snapshot a decision relies on is recent and no poll has failed since. */
  ghost predicate FreshlyObserved(saved: Saved, now: int, c: Settings) {
    var s := LatestAt(saved.snapshots, now);
    s.Some? && s.value.at >= now - Freshness(c) && !FailedSince(saved.log, s.value.at, now)
  }

  /** No successful poll since the outage was reported. */
  ghost predicate StillDown(saved: Saved, id: nat, now: int)
    requires id < |saved.log|
  {
    var s := LatestAt(saved.snapshots, now);
    s.None? || s.value.at < saved.log[id].occurredAt
  }

  lemma CurrentMeansObserved(saved: Saved, id: nat, now: int, c: Settings)
    requires id < |saved.log| && DeliveryRelevance(saved, id, now, c) == Current
    ensures if saved.log[id].category == "system" then StillDown(saved, id, now)
            else FreshlyObserved(saved, now, c) && !IncidentSuperseded(saved, id, |saved.log|, now, c)
  {
  }

  /** Every message of every run is an alert, confirmed, about a state that fresh data still shows. */
  lemma EveryMessageIsCurrent(trace: seq<Mark>, i: nat, id: nat, now: int, confirm: nat, first: Saved, c: Settings)
    requires Legal(trace, first, ServiceRules(confirm, c)) && i < |trace| && trace[i] == Claimed(id, now)
    ensures var saved := Replay(trace[..i], first, ServiceRules(confirm, c)).saved;
      && id < |saved.log| && IsTelegramAlert(saved.log[id])
      && (saved.log[id].severity.Warning? ==>
            saved.log[id].occurredAt + confirm <= now && !WarningHasEnded(saved.log, id))
      && if saved.log[id].category == "system" then StillDown(saved, id, now)
         else FreshlyObserved(saved, now, c) && !IncidentSuperseded(saved, id, |saved.log|, now, c)
  {
    var r := ServiceRules(confirm, c);
    LegalAt(trace, i, first, r);
    RunsAreSane(trace[..i], first, r);
    var db := Replay(trace[..i], first, r);
    HeadIsWaiting(db, id, r);
    SelectionIsThePolicy(db.saved.log[id]);
    CurrentMeansObserved(db.saved, id, now, c);
  }

  /**
   * Two messages of the same incident less than a day apart: the later one is about the later event,
   * and the earlier incident was over when that event occurred.
   */
  lemma OneMessagePerIncident(trace: seq<Mark>, i: nat, j: nat, a: nat, b: nat, at: int, now: int,
                              confirm: nat, first: Saved, c: Settings)
    requires Legal(trace, first, ServiceRules(confirm, c))
    requires i < j < |trace| && trace[i] == Delivered(a) && trace[j] == Claimed(b, now)
    requires Replay(trace[..i], first, ServiceRules(confirm, c)).flight == Some(Flight(a, at, true))
    requires now - at <= REPEAT_WINDOW
    requires var saved := Replay(trace[..j], first, ServiceRules(confirm, c)).saved;
      a < |saved.log| && b < |saved.log| && SameIncident(saved, a, b)
    ensures var saved := Replay(trace[..j], first, ServiceRules(confirm, c)).saved;
      a < b && IncidentSuperseded(saved, a, b + 1, saved.log[b].occurredAt, c)
  {
    var r := ServiceRules(confirm, c);
    NoRepeatWithinADay(trace, i, j, a, b, at, now, first, r);
    LegalPrefix(trace, j, first, r);
    LogsAreInTimeOrder(trace[..j], first, r);
    SupersededMeansOlder(Replay(trace[..j], first, r).saved, a, b, c);
  }

  /** A database with one outage alert and nothing else. */
  function OnlyAnOutage(): Saved {
    Saved([Event(Critical, "system", "Controller", "Monitoring stale", 0, map[],
                 map["monitoring_outage" := Flag(true)])], [], map[], map[])
  }

  /** Under the service's own rules, too, a crash after the acceptance makes the provider accept an alert twice. */
  lemma ServiceMayDuplicate(confirm: nat, c: Settings)
    ensures exists trace :: Legal(trace, OnlyAnOutage(), ServiceRules(confirm, c)) && Acceptances(trace, 0) == 2
  {
    var r := ServiceRules(confirm, c);
    assert Lonely(OnlyAnOutage(), r);
    CrashMayDuplicate(OnlyAnOutage(), r);
  }
}
