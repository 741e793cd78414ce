/**
 * The event log and the snapshots agree about arrays: as long as every poll finds the snapshot of
 * the poll before it, a queued array alert stands exactly when no later event superseded it.
 */
module ArrayAlerts {
  import opened Prelude
  import opened Incidents
  import opened Relevance
  import opened Sequences
  import opened States
  import opened VirtualDrives

  // ------------------------------------------------------------- one drive

  predicate HasState(e: Event) {
    "state" in e.after && e.after["state"].Text?
  }

  function StateAfter(e: Event): string
    requires HasState(e)
  {
    NormalizedState(e.after["state"].text)
  }

  /** The last event of a drive tells its present state, or that it is gone. */
  ghost predicate Tells(e: Event, now: Option<string>) {
    && HasState(e)
    && if now.Some? then !SaysAbsent(e.after) && StateAfter(e) == NormalizedState(now.value)
       else SaysAbsent(e.after) && e.severity.Critical? && StateAfter(e) == "offline"
  }

  predicate Unhealthy(now: Option<string>) {
    now.Some? && !StateSeverity(now.value).Info?
  }

  /**
   * Replaying the events of a drive gives its state; a drive without events is healthy or unknown;
   * a drive that is back was found after it was lost.
   */
  ghost predicate Agrees(history: seq<Event>, now: Option<string>) {
    && (forall e :: e in history ==> HasState(e) && (SaysAbsent(e.after) ==> e.severity.Critical?))
    && (if history == [] then !Unhealthy(now) else Tells(history[|history| - 1], now))
    && (forall i :: 0 <= i < |history| && SaysAbsent(history[i].after) && now.Some? ==>
          exists j :: i < j < |history| && history[j].severity.Info?)
  }

  lemma OfflineIsNormal()
    ensures NormalizedState("Offline") == "offline"
  {
  }

  lemma BaselineAgrees(v: string, now: Option<string>, at: int)
    ensures Agrees(Recorded(v, None, now, at), now)
  {
  }

  /** Events that may follow a history in agreement with `before`. */
  ghost predicate Continues(events: seq<Event>, before: Option<string>, now: Option<string>) {
    && (forall e :: e in events ==> HasState(e) && (SaysAbsent(e.after) ==> e.severity.Critical? && now.None?))
    && (events == [] ==>
          (before.Some? <==> now.Some?) && (now.Some? ==> NormalizedState(before.value) == NormalizedState(now.value)))
    && (events != [] ==> Tells(events[|events| - 1], now) && (now.Some? && before.None? ==> events[0].severity.Info?))
  }

  lemma RecordedContinues(v: string, before: Option<string>, now: Option<string>, at: int)
    ensures Continues(Recorded(v, Some(before), now, at), before, now)
  {
    OfflineIsNormal();
  }

  lemma ContinuedAgrees(history: seq<Event>, events: seq<Event>, before: Option<string>, now: Option<string>)
    requires Agrees(history, before) && Continues(events, before, now)
    ensures Agrees(history + events, now)
  {
    var all := history + events;
    forall i | 0 <= i < |all| && SaysAbsent(all[i].after) && now.Some?
      ensures exists j :: i < j < |all| && all[j].severity.Info?
    {
      if before.Some? {
        var j :| i < j < |history| && history[j].severity.Info?;
        assert all[j] == history[j];
      } else {
        assert all[|history|] == events[0];
      }
    }
  }

  /** A poll whose predecessor is known keeps the log and the drive in agreement. */
  lemma PollAgrees(history: seq<Event>, v: string, before: Option<string>, now: Option<string>, at: int)
    requires Agrees(history, before)
    ensures Agrees(history + Recorded(v, Some(before), now, at), now)
  {
    RecordedContinues(v, before, now, at);
    ContinuedAgrees(history, Recorded(v, Some(before), now, at), before, now);
  }

  /**
   * Whether a poll that no longer finds its predecessor records enough about a drive: nothing was
   * said about the drive before, or it was and is absent, or it is unhealthy, or as it was.
   */
  predicate Harmless(history: seq<Event>, before: Option<string>, now: Option<string>) {
    || history == []
    || (before.None? && now.None?)
    || (before.Some? && (Unhealthy(now) || (now.Some? && NormalizedState(now.value) == NormalizedState(before.value))))
  }

  /** Such a poll takes what it sees for a first inventory, and keeps the agreement under exactly that condition. */
  lemma BlindPollAgreesIff(history: seq<Event>, v: string, before: Option<string>, now: Option<string>, at: int)
    requires Agrees(history, before)
    ensures Agrees(history + Recorded(v, None, now, at), now) <==> Harmless(history, before, now)
  {
    var events := Recorded(v, None, now, at);
    var all := history + events;
    if history == [] {
      assert all == events;
      BaselineAgrees(v, now, at);
    } else if Harmless(history, before, now) {
      forall i | 0 <= i < |all| && SaysAbsent(all[i].after) && now.Some?
        ensures exists j :: i < j < |all| && all[j].severity.Info?
      {
        var j :| i < j < |history| && history[j].severity.Info?;
        assert all[j] == history[j];
      }
    } else if Unhealthy(now) {
      assert all[|history| - 1] == history[|history| - 1] && all[|history|] == events[0];
    } else {
      assert all == history;
    }
  }

  /** Nothing after an event tells another story than the event itself. */
  ghost predicate Repeated(e: Event, tail: seq<Event>) {
    forall t :: t in tail ==> HasState(t) && t.severity == e.severity && IncidentKey(t) == IncidentKey(e)
  }

  lemma SameKeySameState(e: Event, t: Event)
    requires HasState(e) && HasState(t) && IncidentKey(t) == IncidentKey(e)
    ensures StateAfter(t) == StateAfter(e)
  {
    assert IncidentKey(e)["state"] == Text(StateAfter(e));
    assert IncidentKey(t)["state"] == Text(StateAfter(t));
  }

  lemma RepeatedStoryStands(front: seq<Event>, e: Event, tail: seq<Event>, s: Snapshot)
    requires Agrees(front + [e] + tail, StateOf(s.virtualDrives, e.subject)) && Repeated(e, tail)
    ensures VirtualDriveRelevance(e, s) == Current
  {
    var history, now := front + [e] + tail, StateOf(s.virtualDrives, e.subject);
    assert history[|front|] == e;
    var last := history[|history| - 1];
    assert last == e || last in tail;
    SameKeySameState(e, last);
    if e.severity.Critical? {
      NeverFoundAgain(front, e, tail);
    }
  }

  lemma NeverFoundAgain(front: seq<Event>, e: Event, tail: seq<Event>)
    requires Repeated(e, tail) && e.severity.Critical?
    ensures var history := front + [e] + tail;
      forall j :: |front| < j < |history| ==> !history[j].severity.Info?
  {
  }

  // ------------------------------------------------------------- the whole log

  lemma AboutAround(log: seq<Event>, id: nat, v: string)
    requires id < |log| && IsAbout(log[id], v)
    ensures About(log, v) == About(log[..id], v) + [log[id]] + About(log[id + 1..], v)
  {
    assert log == log[..id] + [log[id]] + log[id + 1..];
    AboutConcat(log[..id] + [log[id]], log[id + 1..], v);
    AboutConcat(log[..id], [log[id]], v);
    FilterAll([log[id]], Concerns(v));
  }

  lemma NotEndedMeansRepeated(log: seq<Event>, id: nat, v: string, now: int)
    requires id < |log| && IsAbout(log[id], v) && HasState(log[id])
    requires forall e :: e in About(log[id + 1..], v) ==> HasState(e)
    requires forall j :: 0 <= j < |log| ==> log[j].occurredAt <= now
    requires !EndedInLog(log, id, |log|, now)
    ensures Repeated(log[id], About(log[id + 1..], v))
  {
    var rest := log[id + 1..];
    forall t | t in About(rest, v)
      ensures HasState(t) && t.severity == log[id].severity && IncidentKey(t) == IncidentKey(log[id])
    {
      assert HasState(t);
      var k :| 0 <= k < |rest| && rest[k] == t;
      assert log[id + 1 + k] == t;
      assert !Ends(log[id], t, now);
    }
  }

  /** One database state: an alert stands exactly when it is not superseded. */
  lemma StandsExactlyUntilSuperseded(saved: Saved, id: nat, s: Snapshot, now: int, c: Settings)
    requires id < |saved.log| && saved.log[id].category == "vd_state"
    requires Agrees(About(saved.log, saved.log[id].subject), StateOf(s.virtualDrives, saved.log[id].subject))
    requires forall j :: 0 <= j < |saved.log| ==> saved.log[j].occurredAt <= now
    requires LatestAt(saved.snapshots, now) == Some(s) && s.at >= now - Freshness(c)
    requires !FailedSince(saved.log, s.at, now)
    ensures DeliveryRelevance(saved, id, now, c) == Current <==> !IncidentSuperseded(saved, id, |saved.log|, now, c)
  {
    if !IncidentSuperseded(saved, id, |saved.log|, now, c) {
      var log, v := saved.log, saved.log[id].subject;
      AboutAround(log, id, v);
      var tail := About(log[id + 1..], v);
      assert log[id] in About(log, v) && forall t :: t in tail ==> t in About(log, v);
      NotEndedMeansRepeated(log, id, v, now);
      RepeatedStoryStands(About(log[..id], v), log[id], tail, s);
    }
  }
}
