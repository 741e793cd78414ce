/**
 * Fairness of the batch: with k unfinished alerts ahead of a due one and no new arrivals, the due
 * one is decided on before k / 100 + 1 cycles have finished without a crash.
 */
module OutboxFairness {
  import opened Incidents
  import opened Outbox
  import opened OutboxQueue
  import opened OutboxRuns

  predicate Decides(m: Mark, id: nat) {
    (m.Deferred? || m.Dropped? || m.Claimed?) && m.id == id
  }

  predicate Disturbs(m: Mark) {
    m.Collected? || m.Crashed?
  }

  /** The unfinished alerts that come before `id` in the order of the batch. */
  function AheadOf(db: Db, id: nat, r: Rules): set<nat> {
    set a: nat | a < |db.saved.log| && r.alert(db.saved.log[a]) && Queued(db.rows, a) && Ahead(db.saved, db.rows, a, id)
  }

  /** How much of a full batch the running cycle has already settled. */
  function Settled(db: Db): int {
    if db.cycle.None? then 0 else BATCH - |db.cycle.value.pending| - (if db.flight.Some? then 1 else 0)
  }

  ghost predicate DueNow(db: Db, id: nat, r: Rules) {
    Waiting(db, id, r) && Due(db.rows, id, db.clock)
  }

  /** The running cycle works on alerts ahead of `id` only. */
  ghost predicate WorksAhead(db: Db, id: nat, r: Rules) {
    db.cycle.Some? ==>
      && (forall a: nat :: a in db.cycle.value.pending ==> a != id && a in AheadOf(db, id, r))
      && (db.flight.Some? ==> db.flight.value.id != id && db.flight.value.id in AheadOf(db, id, r))
  }

  /** Either the cycle has `id` in its batch, or what is ahead of it shrinks as the cycle proceeds. */
  ghost predicate InLine(db: Db, id: nat, credit: int, r: Rules) {
    && DueNow(db, id, r) && (db.flight.Some? ==> db.cycle.Some? && db.flight.value.id != id)
    && if db.cycle.Some? && id in db.cycle.value.pending then credit >= 0
       else WorksAhead(db, id, r) && Settled(db) >= 0 && |AheadOf(db, id, r)| + Settled(db) <= credit
  }

  /** A row that now waits beyond the clock, or is finished, is not ahead of a due row any more. */
  lemma LeavesTheFront(db: Db, next: Db, id: nat, h: nat, r: Rules)
    requires next.saved == db.saved && h in AheadOf(db, id, r) && h != id
    requires forall a: nat :: a != h ==> (a in next.rows <==> a in db.rows) && RowOf(next.rows, a) == RowOf(db.rows, a)
    requires !Queued(next.rows, h) || !Ahead(next.saved, next.rows, h, id)
    ensures AheadOf(next, id, r) == AheadOf(db, id, r) - {h}
    ensures |AheadOf(next, id, r)| == |AheadOf(db, id, r)| - 1
  {
    forall a: nat ensures a in AheadOf(next, id, r) <==> a in AheadOf(db, id, r) - {h} {
    }
  }

  /** Claiming or requeuing an alert that is ahead leaves it ahead. */
  lemma StaysInFront(db: Db, next: Db, id: nat, h: nat, r: Rules)
    requires next.saved == db.saved && h in AheadOf(db, id, r) && h != id
    requires forall a: nat :: a != h ==> (a in next.rows <==> a in db.rows) && RowOf(next.rows, a) == RowOf(db.rows, a)
    requires Queued(next.rows, h) && Ahead(next.saved, next.rows, h, id)
    ensures AheadOf(next, id, r) == AheadOf(db, id, r)
  {
  }

  lemma SameFront(db: Db, next: Db, id: nat, r: Rules)
    requires next.saved == db.saved && next.rows == db.rows
    ensures AheadOf(next, id, r) == AheadOf(db, id, r)
  {
  }

  lemma StartsInLine(db: Db, now: int, id: nat, credit: int, r: Rules)
    requires Sane(db, r) && Justified(db, Started(now), r) && InLine(db, id, credit, r)
    ensures InLine(Apply(db, Started(now), r), id, credit, r)
  {
    var next := Begun(db, now, r);
    StartKeepsRows(db, now, r);
    BatchIsTheFrontOfTheQueue(db.saved, next.rows, now, r);
    assert Candidate(db.saved, next.rows, id, now, r);
    assert AheadOf(next, id, r) == AheadOf(db, id, r);
    if id !in next.cycle.value.pending {
      forall a: nat | a in next.cycle.value.pending ensures a != id && a in AheadOf(next, id, r) {
        assert Candidate(db.saved, next.rows, a, now, r);
      }
    }
  }

  lemma StartKeepsRows(db: Db, now: int, r: Rules)
    requires Sane(db, r) && now >= db.clock
    ensures ClampRows(db.rows, now) == db.rows
  {
    forall a: nat | a in db.rows ensures ClampRow(db.rows[a], now) == db.rows[a] {
      assert RowIsSane(db, a, r);
    }
  }

  /** The head of the batch is decided on and ends up behind `id`, or in flight. */
  lemma HeadMovesOn(db: Db, m: Mark, id: nat, credit: int, r: Rules)
    requires Sane(db, r) && Justified(db, m, r) && InLine(db, id, credit, r)
    requires (m.Deferred? || m.Dropped? || m.Claimed?) && m.id != id && id !in db.cycle.value.pending
    ensures InLine(Apply(db, m, r), id, credit, r)
  {
    var next, pending := Apply(db, m, r), db.cycle.value.pending;
    assert m.id in pending;
    if m.Claimed? {
      StaysInFront(db, next, id, m.id, r);
    } else {
      LeavesTheFront(db, next, id, m.id, r);
    }
    assert next.cycle.value.pending == pending[1..];
    forall a: nat | a in pending[1..] ensures a != id && a != m.id && a in AheadOf(next, id, r) {
      assert a in pending;
      assert pending[0] == m.id;
    }
  }

  /** While `id` is in the batch, deciding on another alert keeps it there. */
  lemma StaysInTheBatch(db: Db, m: Mark, id: nat, credit: int, r: Rules)
    requires Sane(db, r) && Justified(db, m, r) && InLine(db, id, credit, r)
    requires db.cycle.Some? && id in db.cycle.value.pending && !Decides(m, id) && !Disturbs(m)
    ensures InLine(Apply(db, m, r), id, credit, r) && !m.Finished?
  {
    var pending := db.cycle.value.pending;
    if m.Deferred? || m.Dropped? || m.Claimed? {
      assert pending[0] == m.id;
      assert id in pending[1..];
    }
  }

  lemma OutcomeMovesOn(db: Db, m: Mark, id: nat, credit: int, r: Rules)
    requires Sane(db, r) && Justified(db, m, r) && InLine(db, id, credit, r)
    requires (m.Refused? || m.Delivered?) && db.cycle.Some? && id !in db.cycle.value.pending
    ensures InLine(Apply(db, m, r), id, credit, r)
  {
    if m.Refused? {
      DelayIsBounded(RowOf(db.rows, m.id).attempts, m.hint);
    }
    LeavesTheFront(db, Apply(db, m, r), id, m.id, r);
  }

  lemma RequeueStaysInFront(db: Db, m: Mark, id: nat, credit: int, r: Rules)
    requires Sane(db, r) && Justified(db, m, r) && InLine(db, id, credit, r)
    requires m.Requeued? && id !in db.cycle.value.pending
    ensures InLine(Apply(db, m, r), id, credit, r)
  {
    assert m.id in db.cycle.value.pending;
    StaysInFront(db, Apply(db, m, r), id, m.id, r);
  }

  /** One commit of an undisturbed run that does not decide on `id`; a finished cycle uses up a batch. */
  lemma OneStepInLine(db: Db, m: Mark, id: nat, credit: int, r: Rules)
    requires Sane(db, r) && Justified(db, m, r) && InLine(db, id, credit, r) && !Decides(m, id) && !Disturbs(m)
    ensures InLine(Apply(db, m, r), id, if m.Finished? then credit - BATCH else credit, r)
  {
    if db.cycle.Some? && id in db.cycle.value.pending {
      StaysInTheBatch(db, m, id, credit, r);
    } else {
      match m
      case Started(now) => StartsInLine(db, now, id, credit, r);
      case Requeued(_) => RequeueStaysInFront(db, m, id, credit, r);
      case Deferred(_, _, _) => HeadMovesOn(db, m, id, credit, r);
      case Dropped(_, _, _) => HeadMovesOn(db, m, id, credit, r);
      case Claimed(_, _) => HeadMovesOn(db, m, id, credit, r);
      case Refused(_, _, _) => OutcomeMovesOn(db, m, id, credit, r);
      case Delivered(_) => OutcomeMovesOn(db, m, id, credit, r);
      case Accepted(_) => SameFront(db, Apply(db, m, r), id, r);
      case Finished => SameFront(db, Apply(db, m, r), id, r);
      case _ =>
    }
  }

  /** Cycles that finished from commit `p` on. */
  function Finishes(trace: seq<Mark>, p: nat): nat {
    if |trace| <= p then 0 else Finishes(trace[..|trace| - 1], p) + if trace[|trace| - 1].Finished? then 1 else 0
  }

  /** From commit `p` on no crash and no collector step happens, and `id` is not decided on. */
  predicate PassesOver(trace: seq<Mark>, p: nat, id: nat) {
    |trace| <= p ||
    (PassesOver(trace[..|trace| - 1], p, id) && !Decides(trace[|trace| - 1], id) && !Disturbs(trace[|trace| - 1]))
  }

  lemma {:induction false} CreditRunsDown(trace: seq<Mark>, p: nat, id: nat, saved: Saved, r: Rules)
    requires Legal(trace, saved, r) && p <= |trace| && PassesOver(trace, p, id)
    requires var db := Replay(trace[..p], saved, r); db.cycle.None? && db.flight.None? && DueNow(db, id, r)
    ensures InLine(Replay(trace, saved, r), id,
                   |AheadOf(Replay(trace[..p], saved, r), id, r)| - BATCH * Finishes(trace, p), r)
    decreases |trace|
  {
    if |trace| == p {
      assert trace[..p] == trace;
    } else {
      var front, last := trace[..|trace| - 1], trace[|trace| - 1];
      assert front[..p] == trace[..p];
      CreditRunsDown(front, p, id, saved, r);
      RunsAreSane(front, saved, r);
      OneStepInLine(Replay(front, saved, r), last, id,
                    |AheadOf(Replay(trace[..p], saved, r), id, r)| - BATCH * Finishes(front, p), r);
    }
  }

  /** A due alert is not passed over by more than k / 100 cycles when k unfinished alerts are ahead of it. */
  lemma BatchesAreFair(trace: seq<Mark>, p: nat, id: nat, saved: Saved, r: Rules)
    requires Legal(trace, saved, r) && p <= |trace| && PassesOver(trace, p, id)
    requires var db := Replay(trace[..p], saved, r); db.cycle.None? && db.flight.None? && DueNow(db, id, r)
    ensures Finishes(trace, p) <= |AheadOf(Replay(trace[..p], saved, r), id, r)| / BATCH
  {
    CreditRunsDown(trace, p, id, saved, r);
    var k, n := |AheadOf(Replay(trace[..p], saved, r), id, r)|, Finishes(trace, p);
    assert BATCH * n <= k;
  }
}
