/** What holds in every run of the Telegram outbox, with crashes and collector steps anywhere. */
module OutboxRuns {
  import opened Prelude
  import opened Incidents
  import opened Outbox
  import opened OutboxQueue

  // ------------------------------------------------------------- backoff

  lemma {:induction false} PowGrows(m: nat, n: nat)
    requires m <= n
    ensures Pow2(m) <= Pow2(n)
    decreases n
  {
    if m == n {
    } else {
      PowGrows(m, n - 1);
    }
  }

  /** The delay never shrinks with the attempts and stays between a minute and an hour. */
  lemma BackoffIsBoundedAndMonotone(a: nat, b: nat)
    requires 1 <= a <= b
    ensures 60 <= Backoff(a) <= Backoff(b) <= 3600
    ensures Backoff(1) == 60 && (a >= 7 ==> Backoff(a) == 3600)
  {
    PowGrows(Min(Max(a - 1, 0), 6), Min(Max(b - 1, 0), 6));
    assert Pow2(6) == 64 by {
      assert Pow2(3) == 8;
      assert Pow2(5) == 4 * Pow2(3);
    }
  }

  lemma DelayIsBounded(attempts: nat, h: Hint)
    ensures 60 <= Delay(attempts, h) <= RETRY_MAX
    ensures Bounded(h).Some? ==> 1 <= Bounded(h).value <= Delay(attempts, h)
  {
  }

  // ------------------------------------------------------------- what every state satisfies

  /** Rows that were ever claimed belong to confirmed events and wait at most an hour. */
  ghost predicate RowIsSane(db: Db, id: nat, r: Rules) {
    var row := RowOf(db.rows, id);
    && (row.attempts > 0 ==> !Unconfirmed(db.saved, id, db.clock, r))
    && (row.attempts > 0 && row.nextAttempt.Some? ==> row.nextAttempt.value <= db.clock + RETRY_MAX)
  }

  /** The embargo ends within the hour, and a cycle that is not blocked has outlived it. */
  ghost predicate ChannelIsSane(db: Db) {
    && !Embargoed(db.cooldown, db.clock + RETRY_MAX)
    && (db.cycle.Some? && !db.cycle.value.blocked ==> !Embargoed(db.cooldown, db.clock))
    && (db.flight.Some? ==> db.cycle.Some? && !Embargoed(db.cooldown, db.clock))
  }

  /** An alert that has happened and is not finished. */
  ghost predicate Waiting(db: Db, id: nat, r: Rules) {
    && id < |db.saved.log|
    && db.saved.log[id].occurredAt <= db.clock
    && r.alert(db.saved.log[id])
    && Queued(db.rows, id)
  }

  /** A cycle still has to look at distinct, unfinished alerts, and not at the one being sent. */
  ghost predicate PendingIsSane(db: Db, r: Rules) {
    db.cycle.Some? ==>
      var pending := db.cycle.value.pending;
      && (forall i, j :: 0 <= i < j < |pending| ==> pending[i] != pending[j])
      && (forall id :: id in pending ==> Waiting(db, id, r))
      && (db.flight.Some? ==> db.flight.value.id !in pending)
  }

  /** The send in flight has a claimed row. */
  ghost predicate FlightIsSane(db: Db, r: Rules) {
    db.flight.Some? ==>
      var id := db.flight.value.id;
      id in db.rows && db.rows[id].status.Sending? && db.rows[id].attempts > 0 && Waiting(db, id, r)
  }

  ghost predicate RowsAreKnown(db: Db) {
    forall id :: id in db.rows ==> id < |db.saved.log|
  }

  lemma ChannelStaysSane(db: Db, m: Mark, r: Rules)
    requires ChannelIsSane(db) && Justified(db, m, r)
    ensures ChannelIsSane(Apply(db, m, r))
  {
  }

  lemma RowStaysSane(db: Db, m: Mark, id: nat, r: Rules)
    requires RowIsSane(db, id, r) && Justified(db, m, r) && id < |db.saved.log|
    ensures RowIsSane(Apply(db, m, r), id, r)
  {
    if m.Refused? {
      DelayIsBounded(RowOf(db.rows, m.id).attempts, m.hint);
    }
  }

  lemma PendingStartsSane(db: Db, now: int, r: Rules)
    ensures PendingIsSane(Begun(db, now, r), r)
  {
    BatchIsTheFrontOfTheQueue(db.saved, ClampRows(db.rows, now), now, r);
  }

  /** Deciding on the first candidate leaves the others as they were. */
  lemma RestStaysSane(db: Db, id: nat, m: Mark, r: Rules)
    requires PendingIsSane(db, r) && Examining(db, id)
    requires (m.Deferred? && m.id == id) || (m.Dropped? && m.id == id) || (m.Claimed? && m.id == id)
    requires m.now >= db.clock
    ensures PendingIsSane(Apply(db, m, r), r)
  {
    var next, pending := Apply(db, m, r), db.cycle.value.pending;
    assert next.cycle.value.pending == pending[1..];
    forall other | other in pending[1..] ensures other != id && Waiting(next, other, r) {
      assert other in pending;
      assert pending[0] == id;
      assert Waiting(db, other, r);
    }
  }

  lemma PendingOutlivesCollection(db: Db, saved: Saved, r: Rules)
    requires PendingIsSane(db, r) && db.saved.log <= saved.log
    ensures PendingIsSane(db.(saved := saved), r)
  {
  }

  lemma PendingStaysSane(db: Db, m: Mark, r: Rules)
    requires PendingIsSane(db, r) && FlightIsSane(db, r) && Justified(db, m, r)
    ensures PendingIsSane(Apply(db, m, r), r)
  {
    match m
    case Started(now) => PendingStartsSane(db, now, r);
    case Deferred(id, now, why) => RestStaysSane(db, id, m, r);
    case Dropped(id, now, why) => RestStaysSane(db, id, m, r);
    case Claimed(id, now) => RestStaysSane(db, id, m, r);
    case Collected(saved) => PendingOutlivesCollection(db, saved, r);
    case _ =>
  }

  lemma HeadIsWaiting(db: Db, id: nat, r: Rules)
    requires PendingIsSane(db, r) && Examining(db, id)
    ensures Waiting(db, id, r)
  {
  }

  lemma FlightStaysSane(db: Db, m: Mark, r: Rules)
    requires PendingIsSane(db, r) && FlightIsSane(db, r) && Justified(db, m, r)
    ensures FlightIsSane(Apply(db, m, r), r)
  {
    if m.Claimed? {
      HeadIsWaiting(db, m.id, r);
    }
  }

  lemma RowsStayKnown(db: Db, m: Mark, r: Rules)
    requires PendingIsSane(db, r) && FlightIsSane(db, r) && RowsAreKnown(db) && Justified(db, m, r)
    ensures RowsAreKnown(Apply(db, m, r))
  {
    if m.Requeued? || m.Deferred? || m.Dropped? || m.Claimed? {
      HeadIsWaiting(db, m.id, r);
    }
  }

  // ------------------------------------------------------------- every run

  ghost predicate Sane(db: Db, r: Rules) {
    && ChannelIsSane(db) && PendingIsSane(db, r) && FlightIsSane(db, r) && RowsAreKnown(db)
    && (forall id: nat :: RowIsSane(db, id, r))
  }

  lemma StepStaysSane(db: Db, m: Mark, r: Rules)
    requires Sane(db, r) && Justified(db, m, r)
    ensures Sane(Apply(db, m, r), r)
  {
    ChannelStaysSane(db, m, r);
    PendingStaysSane(db, m, r);
    FlightStaysSane(db, m, r);
    RowsStayKnown(db, m, r);
    var next := Apply(db, m, r);
    forall id: nat ensures RowIsSane(next, id, r) {
      if id < |db.saved.log| {
        RowStaysSane(db, m, id, r);
      } else {
        assert id in next.rows ==> RowsAreKnown(next);
      }
    }
  }

  lemma {:induction false} RunsAreSane(trace: seq<Mark>, saved: Saved, r: Rules)
    requires Legal(trace, saved, r)
    ensures Sane(Replay(trace, saved, r), r)
  {
    if trace == [] {
      assert Replay(trace, saved, r) == Empty(saved);
    } else {
      var front := trace[..|trace| - 1];
      RunsAreSane(front, saved, r);
      StepStaysSane(Replay(front, saved, r), trace[|trace| - 1], r);
    }
  }
}
