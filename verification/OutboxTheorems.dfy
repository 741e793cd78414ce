/** Whole-run properties of the Telegram outbox: embargo, retries, budget, no loss, one message. */
module OutboxTheorems {
  import opened Prelude
  import opened Incidents
  import opened Outbox
  import opened OutboxQueue
  import opened OutboxRuns

  // ------------------------------------------------------------- the channel embargo

  /** The repairs at the start of a cycle change nothing that this code wrote. */
  lemma ClampsAreNoOps(trace: seq<Mark>, now: int, saved: Saved, r: Rules)
    requires Legal(trace, saved, r) && Justified(Replay(trace, saved, r), Started(now), r)
    ensures var db := Replay(trace, saved, r);
      ClampCooldown(db.cooldown, now) == db.cooldown && ClampRows(db.rows, now) == db.rows
  {
    RunsAreSane(trace, saved, r);
    var db := Replay(trace, saved, r);
    forall id: nat | id in db.rows ensures ClampRow(db.rows[id], now) == db.rows[id] {
      assert RowIsSane(db, id, r);
    }
  }

  ghost predicate EmbargoedUntil(db: Db, until: int) {
    db.cooldown.Some? && db.cooldown.value >= until
  }

  lemma EmbargoGrows(db: Db, m: Mark, until: int, r: Rules)
    requires Sane(db, r) && Justified(db, m, r) && EmbargoedUntil(db, until)
    ensures EmbargoedUntil(Apply(db, m, r), until)
    ensures m.Refused? && Bounded(m.hint).Some? ==> Apply(db, m, r).cooldown.value > db.cooldown.value
  {
    if m.Refused? {
      DelayIsBounded(0, m.hint);
    }
  }

  lemma {:induction false} EmbargoLasts(trace: seq<Mark>, i: nat, k: nat, saved: Saved, r: Rules)
    requires Legal(trace, saved, r) && i < k <= |trace|
    requires trace[i].Refused? && Bounded(trace[i].hint).Some?
    ensures EmbargoedUntil(Replay(trace[..k], saved, r), trace[i].now + Bounded(trace[i].hint).value)
    decreases k
  {
    LegalAt(trace, k - 1, saved, r);
    if i == k - 1 {
    } else {
      EmbargoLasts(trace, i, k - 1, saved, r);
      RunsAreSane(trace[..k - 1], saved, r);
      EmbargoGrows(Replay(trace[..k - 1], saved, r), trace[k - 1], trace[i].now + Bounded(trace[i].hint).value, r);
    }
  }

  /** No send starts before the end of any waiting time the provider ever asked for. */
  lemma NoSendDuringAnEmbargo(trace: seq<Mark>, i: nat, j: nat, saved: Saved, r: Rules)
    requires Legal(trace, saved, r) && i < j < |trace|
    requires trace[i].Refused? && Bounded(trace[i].hint).Some? && trace[j].Claimed?
    ensures trace[j].now >= trace[i].now + Bounded(trace[i].hint).value
  {
    EmbargoLasts(trace, i, j, saved, r);
    LegalAt(trace, j, saved, r);
    RunsAreSane(trace[..j], saved, r);
  }

  /** Every embargo that is written ends later than the one it replaces. */
  lemma EmbargoesAdvance(trace: seq<Mark>, i: nat, saved: Saved, r: Rules)
    requires Legal(trace, saved, r) && i < |trace| && trace[i].Refused? && Bounded(trace[i].hint).Some?
    requires Replay(trace[..i], saved, r).cooldown.Some?
    ensures Replay(trace[..i + 1], saved, r).cooldown.Some?
    ensures Replay(trace[..i + 1], saved, r).cooldown.value > Replay(trace[..i], saved, r).cooldown.value
  {
    LegalAt(trace, i, saved, r);
    RunsAreSane(trace[..i], saved, r);
    var db := Replay(trace[..i], saved, r);
    EmbargoGrows(db, trace[i], db.cooldown.value, r);
  }

  // ------------------------------------------------------------- the retry time of one event

  /** The event is not looked at before `until`. */
  ghost predicate HeldUntil(db: Db, id: nat, until: int) {
    db.clock >= until ||
    (&& id in db.rows && db.rows[id].status.Retry? && db.rows[id].attempts > 0 && db.rows[id].nextAttempt == Some(until)
     && (db.cycle.Some? ==> id !in db.cycle.value.pending)
     && (db.flight.Some? ==> db.flight.value.id != id))
  }

  lemma HoldStarts(db: Db, now: int, id: nat, until: int, r: Rules)
    requires Sane(db, r) && Justified(db, Started(now), r) && HeldUntil(db, id, until)
    ensures HeldUntil(Apply(db, Started(now), r), id, until)
  {
    assert RowIsSane(db, id, r);
    BatchIsTheFrontOfTheQueue(db.saved, ClampRows(db.rows, now), now, r);
  }

  lemma HoldLastsOneStep(db: Db, m: Mark, id: nat, until: int, r: Rules)
    requires Sane(db, r) && Justified(db, m, r) && HeldUntil(db, id, until)
    ensures HeldUntil(Apply(db, m, r), id, until)
  {
    if m.Started? {
      HoldStarts(db, m.now, id, until, r);
    } else if m.Requeued? || m.Deferred? || m.Dropped? || m.Claimed? {
      assert m.id in db.cycle.value.pending;
    }
  }

  lemma RefusalHolds(db: Db, id: nat, now: int, hint: Hint, r: Rules)
    requires Sane(db, r) && Justified(db, Refused(id, now, hint), r)
    ensures HeldUntil(Apply(db, Refused(id, now, hint), r), id, now + Delay(RowOf(db.rows, id).attempts, hint))
  {
  }

  lemma {:induction false} HoldLasts(trace: seq<Mark>, i: nat, k: nat, id: nat, until: int, saved: Saved, r: Rules)
    requires Legal(trace, saved, r) && i <= k <= |trace|
    requires HeldUntil(Replay(trace[..i], saved, r), id, until)
    ensures HeldUntil(Replay(trace[..k], saved, r), id, until)
    decreases k
  {
    if i == k {
    } else {
      var before := Replay(trace[..k - 1], saved, r);
      HoldLasts(trace, i, k - 1, id, until, saved, r);
      LegalAt(trace, k - 1, saved, r);
      RunsAreSane(trace[..k - 1], saved, r);
      HoldLastsOneStep(before, trace[k - 1], id, until, r);
      assert Replay(trace[..k], saved, r) == Apply(before, trace[k - 1], r);
    }
  }

  lemma HeldEventIsNotClaimed(db: Db, id: nat, now: int, until: int, r: Rules)
    requires HeldUntil(db, id, until) && Justified(db, Claimed(id, now), r)
    ensures now >= until
  {
  }

  /** No event is sent again before the retry time its last failure recorded. */
  lemma NoSendBeforeTheRetryTime(trace: seq<Mark>, i: nat, j: nat, id: nat, at: int, now: int, hint: Hint,
                                 saved: Saved, r: Rules)
    requires Legal(trace, saved, r) && i < j < |trace| && trace[i] == Refused(id, at, hint)
    requires trace[j] == Claimed(id, now)
    ensures now >= at + Delay(RowOf(Replay(trace[..i], saved, r).rows, id).attempts, hint)
  {
    RefusalHoldsAt(trace, i, id, at, hint, saved, r);
    var until := at + Delay(RowOf(Replay(trace[..i], saved, r).rows, id).attempts, hint);
    HoldLasts(trace, i + 1, j, id, until, saved, r);
    LegalAt(trace, j, saved, r);
    HeldEventIsNotClaimed(Replay(trace[..j], saved, r), id, now, until, r);
  }

  lemma RefusalHoldsAt(trace: seq<Mark>, i: nat, id: nat, at: int, hint: Hint, saved: Saved, r: Rules)
    requires Legal(trace, saved, r) && i < |trace| && trace[i] == Refused(id, at, hint)
    ensures HeldUntil(Replay(trace[..i + 1], saved, r), id,
                      at + Delay(RowOf(Replay(trace[..i], saved, r).rows, id).attempts, hint))
  {
    LegalAt(trace, i, saved, r);
    RunsAreSane(trace[..i], saved, r);
    RefusalHolds(Replay(trace[..i], saved, r), id, at, hint, r);
  }

  // ------------------------------------------------------------- the budget of a cycle

  /** Sends since the last start of a cycle. */
  function SendsInCycle(trace: seq<Mark>): nat {
    if trace == [] then 0 else
      match trace[|trace| - 1]
      case Started(_) => 0
      case Claimed(_, _) => SendsInCycle(trace[..|trace| - 1]) + 1
      case _ => SendsInCycle(trace[..|trace| - 1])
  }

  predicate FailedInCycle(trace: seq<Mark>) {
    trace != [] &&
    match trace[|trace| - 1]
    case Started(_) => false
    case Refused(_, _, _) => true
    case _ => FailedInCycle(trace[..|trace| - 1])
  }

  ghost predicate WithinBudget(cycle: Option<Cycle>, sends: nat, failed: bool) {
    && sends <= SENDS_PER_CYCLE
    && (cycle.Some? ==> cycle.value.sendsLeft + sends == SENDS_PER_CYCLE)
    && (cycle.Some? && failed ==> cycle.value.blocked)
  }

  lemma BudgetStep(db: Db, m: Mark, sends: nat, failed: bool, r: Rules)
    requires Justified(db, m, r) && WithinBudget(db.cycle, sends, failed)
    requires db.flight.Some? ==> db.cycle.Some?
    ensures WithinBudget(Apply(db, m, r).cycle, if m.Started? then 0 else if m.Claimed? then sends + 1 else sends,
                         if m.Started? then false else failed || m.Refused?)
  {
  }

  lemma {:induction false} BudgetIsKept(trace: seq<Mark>, saved: Saved, r: Rules)
    requires Legal(trace, saved, r)
    ensures WithinBudget(Replay(trace, saved, r).cycle, SendsInCycle(trace), FailedInCycle(trace))
  {
    if trace == [] {
      assert Replay(trace, saved, r) == Empty(saved);
    } else {
      var front := trace[..|trace| - 1];
      BudgetIsKept(front, saved, r);
      RunsAreSane(front, saved, r);
      BudgetStep(Replay(front, saved, r), trace[|trace| - 1], SendsInCycle(front), FailedInCycle(front), r);
    }
  }

  /** A cycle makes at most five sends, and none after its first failure. */
  lemma CycleBudget(trace: seq<Mark>, saved: Saved, r: Rules)
    requires Legal(trace, saved, r)
    ensures SendsInCycle(trace) <= 5
    ensures trace != [] && trace[|trace| - 1].Claimed? ==> !FailedInCycle(trace)
  {
    BudgetIsKept(trace, saved, r);
    if trace != [] && trace[|trace| - 1].Claimed? {
      BudgetIsKept(trace[..|trace| - 1], saved, r);
    }
  }

  // ------------------------------------------------------------- attempts

  function Claims(trace: seq<Mark>, id: nat): nat {
    if trace == [] then 0 else
      Claims(trace[..|trace| - 1], id) + if trace[|trace| - 1].Claimed? && trace[|trace| - 1].id == id then 1 else 0
  }

  lemma ClaimsCount(db: Db, m: Mark, id: nat, r: Rules)
    ensures RowOf(Apply(db, m, r).rows, id).attempts ==
            RowOf(db.rows, id).attempts + if m.Claimed? && m.id == id then 1 else 0
  {
  }

  /** The stored counter is the number of claims, whatever crashed in between. */
  lemma {:induction false} AttemptsAreClaims(trace: seq<Mark>, id: nat, saved: Saved, r: Rules)
    ensures RowOf(Replay(trace, saved, r).rows, id).attempts == Claims(trace, id)
  {
    if trace == [] {
      assert Replay(trace, saved, r) == Empty(saved);
    } else {
      var front := trace[..|trace| - 1];
      AttemptsAreClaims(front, id, saved, r);
      ClaimsCount(Replay(front, saved, r), trace[|trace| - 1], id, r);
    }
  }
}
