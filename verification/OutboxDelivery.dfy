/** Nothing is lost and one incident is one message: what a run did with each event. */
module OutboxDelivery {
  import opened Prelude
  import opened Incidents
  import opened Sequences
  import opened Sorting
  import opened Outbox
  import opened OutboxRuns

  // ------------------------------------------------------------- no silent loss

  /** The time of the latest commit that decided about an event. */
  function Touched(trace: seq<Mark>, id: nat): Option<int> {
    if trace == [] then None else
      match trace[|trace| - 1]
      case Deferred(x, now, _) => if x == id then Some(now) else Touched(trace[..|trace| - 1], id)
      case Claimed(x, now) => if x == id then Some(now) else Touched(trace[..|trace| - 1], id)
      case Refused(x, now, _) => if x == id then Some(now) else Touched(trace[..|trace| - 1], id)
      case _ => Touched(trace[..|trace| - 1], id)
  }

  /** A wait that was written at `touched` ends within the hour or the confirmation delay. */
  ghost predicate DueSoon(db: Db, id: nat, touched: Option<int>, r: Rules) {
    RowOf(db.rows, id).nextAttempt.Some? ==>
      touched.Some? && RowOf(db.rows, id).nextAttempt.value <= touched.value + Max(RETRY_MAX, r.confirm)
  }

  function TouchedBy(m: Mark, id: nat, before: Option<int>): Option<int> {
    if (m.Deferred? || m.Claimed? || m.Refused?) && m.id == id then Some(m.now) else before
  }

  lemma StaysDueSoon(db: Db, m: Mark, id: nat, touched: Option<int>, r: Rules)
    requires Sane(db, r) && Justified(db, m, r) && DueSoon(db, id, touched, r)
    ensures DueSoon(Apply(db, m, r), id, TouchedBy(m, id, touched), r)
  {
    if m.Deferred? {
      HeadIsWaiting(db, m.id, r);
    }
    if m.Refused? {
      DelayIsBounded(RowOf(db.rows, m.id).attempts, m.hint);
    }
  }

  lemma {:induction false} AlwaysDueSoon(trace: seq<Mark>, id: nat, saved: Saved, r: Rules)
    requires Legal(trace, saved, r)
    ensures DueSoon(Replay(trace, saved, r), id, Touched(trace, id), r)
  {
    if trace == [] {
      assert Replay(trace, saved, r) == Empty(saved);
    } else {
      var front := trace[..|trace| - 1];
      AlwaysDueSoon(front, id, saved, r);
      RunsAreSane(front, saved, r);
      StaysDueSoon(Replay(front, saved, r), trace[|trace| - 1], id, Touched(front, id), r);
    }
  }

  /** The run dropped this event for this reason. */
  ghost predicate WasDropped(trace: seq<Mark>, id: nat, why: Detail) {
    exists i :: 0 <= i < |trace| && trace[i].Dropped? && trace[i].id == id && trace[i].why == why
  }

  /** What a finished row proves about the run, and what an accepted send does. */
  ghost predicate Accounted(trace: seq<Mark>, db: Db, id: nat) {
    && (id in db.rows && db.rows[id].status.Sent? ==> Accepted(id) in trace)
    && (id in db.rows && db.rows[id].status.Skipped? ==> WasDropped(trace, id, db.rows[id].detail))
    && (db.flight.Some? && db.flight.value.id == id && db.flight.value.accepted ==> Accepted(id) in trace)
  }

  lemma StaysAccounted(trace: seq<Mark>, db: Db, m: Mark, id: nat, r: Rules)
    requires Justified(db, m, r) && Accounted(trace, db, id)
    ensures Accounted(trace + [m], Apply(db, m, r), id)
  {
    var all, next := trace + [m], Apply(db, m, r);
    assert all[|trace|] == m;
    assert forall x :: x in trace ==> x in all;
    if id in next.rows && next.rows[id].status.Skipped? && !(m.Dropped? && m.id == id) {
      var i :| 0 <= i < |trace| && trace[i].Dropped? && trace[i].id == id && trace[i].why == db.rows[id].detail;
      assert all[i] == trace[i];
    }
  }

  lemma {:induction false} EveryRowIsAccounted(trace: seq<Mark>, id: nat, saved: Saved, r: Rules)
    requires Legal(trace, saved, r)
    ensures Accounted(trace, Replay(trace, saved, r), id)
  {
    if trace == [] {
      assert Replay(trace, saved, r) == Empty(saved);
    } else {
      var front, last := trace[..|trace| - 1], trace[|trace| - 1];
      EveryRowIsAccounted(front, id, saved, r);
      StaysAccounted(front, Replay(front, saved, r), last, id, r);
      assert front + [last] == trace;
    }
  }

  /** Nothing is dropped without its reason: the guard of that reason held at the commit. */
  lemma DroppedForAReason(trace: seq<Mark>, id: nat, why: Detail, saved: Saved, r: Rules)
    requires Legal(trace, saved, r) && WasDropped(trace, id, why)
    ensures why == NotConfirmed || why == Obsolete || why == Duplicate
    ensures exists i :: 0 <= i < |trace| && trace[i].Dropped? && trace[i].id == id
                        && MayDrop(Replay(trace[..i], saved, r), id, trace[i].now, why, r)
  {
    var i :| 0 <= i < |trace| && trace[i].Dropped? && trace[i].id == id && trace[i].why == why;
    LegalAt(trace, i, saved, r);
  }

  /**
   * Every alert, in every reachable state: the provider accepted it, or the run dropped it for a
   * reason that held, or it is a candidate again no later than the longest wait after it was last
   * decided on.
   */
  lemma NothingIsLost(trace: seq<Mark>, id: nat, now: int, saved: Saved, r: Rules)
    requires Legal(trace, saved, r)
    requires var db := Replay(trace, saved, r);
      id < |db.saved.log| && r.alert(db.saved.log[id]) && now >= db.saved.log[id].occurredAt
    requires Touched(trace, id).Some? ==> now >= Touched(trace, id).value + Max(RETRY_MAX, r.confirm)
    ensures var db := Replay(trace, saved, r);
      || (id in db.rows && db.rows[id].status.Sent? && Accepted(id) in trace)
      || (id in db.rows && db.rows[id].status.Skipped? && WasDropped(trace, id, db.rows[id].detail))
      || Candidate(db.saved, db.rows, id, now, r)
  {
    AlwaysDueSoon(trace, id, saved, r);
    EveryRowIsAccounted(trace, id, saved, r);
  }

  // ------------------------------------------------------------- finished rows stay finished

  lemma SentStaysSent(db: Db, m: Mark, id: nat, row: Delivery, r: Rules)
    requires Sane(db, r) && Justified(db, m, r) && id in db.rows && db.rows[id] == row && row.status.Sent?
    ensures id in Apply(db, m, r).rows && Apply(db, m, r).rows[id] == row
  {
    if m.Requeued? || m.Deferred? || m.Dropped? || m.Claimed? {
      HeadIsWaiting(db, m.id, r);
    }
  }

  lemma {:induction false} SentIsFinal(trace: seq<Mark>, i: nat, k: nat, id: nat, row: Delivery, saved: Saved, r: Rules)
    requires Legal(trace, saved, r) && i <= k <= |trace| && row.status.Sent?
    requires var db := Replay(trace[..i], saved, r); id in db.rows && db.rows[id] == row
    ensures var db := Replay(trace[..k], saved, r); id in db.rows && db.rows[id] == row
    decreases k
  {
    if i == k {
    } else {
      SentIsFinal(trace, i, k - 1, id, row, saved, r);
      LegalAt(trace, k - 1, saved, r);
      RunsAreSane(trace[..k - 1], saved, r);
      SentStaysSent(Replay(trace[..k - 1], saved, r), trace[k - 1], id, row, r);
    }
  }

  /** Within a day of a delivery, a claim of another event is never a repeat of it. */
  lemma NoRepeatWithinADay(trace: seq<Mark>, i: nat, j: nat, a: nat, b: nat, at: int, now: int, saved: Saved, r: Rules)
    requires Legal(trace, saved, r) && i < j < |trace| && trace[i] == Delivered(a) && trace[j] == Claimed(b, now)
    requires Replay(trace[..i], saved, r).flight == Some(Flight(a, at, true)) && now - at <= REPEAT_WINDOW
    ensures a != b && !r.repeats(Replay(trace[..j], saved, r).saved, a, b)
  {
    var before := Replay(trace[..i], saved, r);
    var row := DeliveredRow(RowOf(before.rows, a), before.flight);
    LegalAt(trace, i, saved, r);
    SentIsFinal(trace, i + 1, j, a, row, saved, r);
    LegalAt(trace, j, saved, r);
    RunsAreSane(trace[..j], saved, r);
    HeadIsWaiting(Replay(trace[..j], saved, r), b, r);
  }

  // ------------------------------------------------------------- one acceptance per event

  function Acceptances(trace: seq<Mark>, id: nat): nat {
    if trace == [] then 0 else
      Acceptances(trace[..|trace| - 1], id) + if trace[|trace| - 1] == Accepted(id) then 1 else 0
  }

  /** The provider has accepted a send of this event, and the outcome is not stored yet. */
  predicate AwaitsStorage(db: Db, id: nat) {
    db.flight.Some? && db.flight.value.id == id && db.flight.value.accepted
  }

  /** The one moment at which an acceptance is forgotten: a crash or a late refusal before it is stored. */
  predicate Loses(db: Db, m: Mark, id: nat) {
    (m.Crashed? || m.Refused?) && AwaitsStorage(db, id)
  }

  function Lost(trace: seq<Mark>, id: nat, saved: Saved, r: Rules): nat {
    if trace == [] then 0 else
      Lost(trace[..|trace| - 1], id, saved, r)
      + if Loses(Replay(trace[..|trace| - 1], saved, r), trace[|trace| - 1], id) then 1 else 0
  }

  predicate WasSent(db: Db, id: nat) {
    id in db.rows && db.rows[id].status.Sent?
  }

  /** Every acceptance is in a sent row, in an open flight, or lost. */
  ghost predicate Balanced(db: Db, id: nat, acceptances: nat, lost: nat) {
    acceptances == (if WasSent(db, id) then 1 else 0) + (if AwaitsStorage(db, id) then 1 else 0) + lost
  }

  lemma StaysBalanced(db: Db, m: Mark, id: nat, acceptances: nat, lost: nat, r: Rules)
    requires Sane(db, r) && Justified(db, m, r) && Balanced(db, id, acceptances, lost)
    ensures Balanced(Apply(db, m, r), id, acceptances + (if m == Accepted(id) then 1 else 0),
                     lost + if Loses(db, m, id) then 1 else 0)
  {
    if m.Requeued? || m.Deferred? || m.Dropped? || m.Claimed? {
      HeadIsWaiting(db, m.id, r);
    }
  }

  /** The accounts of every run, with any crashes and refusals: no acceptance is invented, none disappears. */
  lemma {:induction false} AcceptancesBalance(trace: seq<Mark>, id: nat, saved: Saved, r: Rules)
    requires Legal(trace, saved, r)
    ensures Balanced(Replay(trace, saved, r), id, Acceptances(trace, id), Lost(trace, id, saved, r))
  {
    if trace == [] {
      assert Replay(trace, saved, r) == Empty(saved);
    } else {
      var front := trace[..|trace| - 1];
      AcceptancesBalance(front, id, saved, r);
      RunsAreSane(front, saved, r);
      StaysBalanced(Replay(front, saved, r), trace[|trace| - 1], id, Acceptances(front, id),
                    Lost(front, id, saved, r), r);
    }
  }

  /** The provider accepted the event once more after one of its acceptances had been lost. */
  ghost predicate AcceptedAfterALoss(trace: seq<Mark>, id: nat, saved: Saved, r: Rules) {
    trace != [] &&
    (|| AcceptedAfterALoss(trace[..|trace| - 1], id, saved, r)
     || (trace[|trace| - 1] == Accepted(id) && Lost(trace[..|trace| - 1], id, saved, r) > 0))
  }

  /** An acceptance finds no other acceptance of its event stored or open: the earlier ones are all lost. */
  lemma EarlierAcceptancesAreLost(trace: seq<Mark>, id: nat, saved: Saved, r: Rules)
    requires Legal(trace + [Accepted(id)], saved, r)
    ensures Acceptances(trace, id) == Lost(trace, id, saved, r)
  {
    OneMore(trace, Accepted(id), saved, r);
    RunsAreSane(trace, saved, r);
    AcceptancesBalance(trace, id, saved, r);
  }

  /**
   * Every run, whatever crashes in it: an event is accepted at most once, except exactly when one of
   * its own acceptances was lost before it was stored and the event was sent again.
   */
  lemma {:induction false} AcceptedTwiceOnlyAfterALoss(trace: seq<Mark>, id: nat, saved: Saved, r: Rules)
    requires Legal(trace, saved, r)
    ensures Acceptances(trace, id) <= 1 <==> !AcceptedAfterALoss(trace, id, saved, r)
  {
    if trace == [] {
    } else {
      var front, last := trace[..|trace| - 1], trace[|trace| - 1];
      AcceptedTwiceOnlyAfterALoss(front, id, saved, r);
      assert front + [last] == trace;
      if last == Accepted(id) {
        EarlierAcceptancesAreLost(front, id, saved, r);
      }
    }
  }

  /** A run that loses no acceptance of an event, whatever else crashes, has it accepted at most once. */
  lemma NoEventIsAcceptedTwice(trace: seq<Mark>, id: nat, saved: Saved, r: Rules)
    requires Legal(trace, saved, r) && Lost(trace, id, saved, r) == 0
    ensures Acceptances(trace, id) <= 1
    ensures Acceptances(trace, id) == 1 <==>
            WasSent(Replay(trace, saved, r), id) || AwaitsStorage(Replay(trace, saved, r), id)
  {
    AcceptancesBalance(trace, id, saved, r);
    RunsAreSane(trace, saved, r);
  }

  // ------------------------------------------------------------- a crash may duplicate a message

  /** A critical alert that stays relevant, alone in the log. */
  ghost predicate Lonely(saved: Saved, r: Rules) {
    && |saved.log| == 1 && saved.log[0].occurredAt <= 0
    && r.alert(saved.log[0]) && !saved.log[0].severity.Warning?
    && r.relevance(saved, 0, 0) == Current
  }

  lemma LonelyBatch(saved: Saved, rows: Rows, r: Rules)
    requires Lonely(saved, r) && Queued(rows, 0) && RowOf(rows, 0).nextAttempt.None?
    ensures Batch(saved, rows, 0, r) == [0]
  {
    var only: seq<nat> := [0];
    assert Candidate(saved, rows, 0, 0, r);
    assert Ids(1) == only;
    FilterAll<nat>(only, CandidateIn(saved, rows, 0, r));
    assert only[..0] == [];
    assert SortBy<nat>(only, AheadIn(saved, rows))
        == InsertBy<nat>(SortBy<nat>([], AheadIn(saved, rows)), 0, AheadIn(saved, rows));
  }

  /** The first cycle, up to a crash after the provider accepted the message. */
  function UpToTheCrash(): seq<Mark> {
    [] + [Started(0)] + [Claimed(0, 0)] + [Accepted(0)] + [Crashed]
  }

  lemma FirstStart(saved: Saved, r: Rules)
    requires Lonely(saved, r)
    ensures Legal([] + [Started(0)], saved, r)
    ensures Replay([] + [Started(0)], saved, r) ==
            Db(saved, map[], None, 0, Some(Cycle([0], SENDS_PER_CYCLE, false)), None)
  {
    LonelyBatch(saved, map[], r);
    assert ClampRows(map[], 0) == map[];
    OneMore([], Started(0), saved, r);
  }

  lemma FirstClaim(saved: Saved, row: Delivery, r: Rules)
    requires Lonely(saved, r) && row == Delivery(Sending, NoDetail, 1, Some(0), None, None)
    ensures var claimed := [] + [Started(0)] + [Claimed(0, 0)];
      && Legal(claimed, saved, r)
      && Replay(claimed, saved, r)
         == Db(saved, map[0 := row], None, 0, Some(Cycle([], 4, false)), Some(Flight(0, 0, false)))
  {
    var started, db := [] + [Started(0)], Db(saved, map[], None, 0, Some(Cycle([0], SENDS_PER_CYCLE, false)), None);
    FirstStart(saved, r);
    assert Justified(db, Claimed(0, 0), r);
    OneMore(started, Claimed(0, 0), saved, r);
    var only: seq<nat> := [0];
    assert only[1..] == [];
    assert Apply(db, Claimed(0, 0), r)
        == Db(saved, map[0 := row], None, 0, Some(Cycle(only[1..], 4, false)), Some(Flight(0, 0, false)));
  }

  lemma AcceptedThenCrashed(trace: seq<Mark>, db: Db, id: nat, saved: Saved, r: Rules)
    requires Legal(trace, saved, r) && db == Replay(trace, saved, r)
    requires db.cycle.Some? && db.flight.Some? && db.flight.value.id == id && !db.flight.value.accepted
    ensures Legal(trace + [Accepted(id)] + [Crashed], saved, r)
    ensures Replay(trace + [Accepted(id)] + [Crashed], saved, r) == db.(cycle := None, flight := None)
  {
  }

  lemma CrashLeavesAClaim(row: Delivery, saved: Saved, r: Rules)
    requires Lonely(saved, r) && row == Delivery(Sending, NoDetail, 1, Some(0), None, None)
    ensures Legal(UpToTheCrash(), saved, r)
    ensures Replay(UpToTheCrash(), saved, r) == Db(saved, map[0 := row], None, 0, None, None)
  {
    var claimed := [] + [Started(0)] + [Claimed(0, 0)];
    FirstClaim(saved, row, r);
    AcceptedThenCrashed(claimed, Replay(claimed, saved, r), 0, saved, r);
  }

  lemma InterruptedClaimIsRequeued(trace: seq<Mark>, rows: Rows, saved: Saved, r: Rules)
    requires Lonely(saved, r) && Legal(trace, saved, r)
    requires rows == map[0 := Delivery(Sending, NoDetail, 1, Some(0), None, None)]
    requires Replay(trace, saved, r) == Db(saved, rows, None, 0, None, None)
    ensures var requeued := trace + [Started(0)] + [Requeued(0)];
      && Legal(requeued, saved, r)
      && Replay(requeued, saved, r)
         == Db(saved, rows[0 := Delivery(Retry, Interrupted, 1, Some(0), None, None)], None, 0,
               Some(Cycle([0], SENDS_PER_CYCLE, false)), None)
  {
    assert ClampRows(rows, 0) == rows;
    LonelyBatch(saved, rows, r);
    OneMore(trace, Started(0), saved, r);
    OneMore(trace + [Started(0)], Requeued(0), saved, r);
  }

  lemma LonelyIsClaimable(db: Db, row: Delivery, r: Rules)
    requires Lonely(db.saved, r) && db.rows == map[0 := row] && row.status.Retry? && db.clock == 0
    requires db.cycle == Some(Cycle([0], SENDS_PER_CYCLE, false)) && db.flight.None?
    ensures Justified(db, Claimed(0, 0), r)
  {
  }

  lemma ClaimedAndAccepted(trace: seq<Mark>, db: Db, saved: Saved, r: Rules)
    requires Legal(trace, saved, r) && db == Replay(trace, saved, r) && Justified(db, Claimed(0, 0), r)
    ensures Legal(trace + [Claimed(0, 0)] + [Accepted(0)], saved, r)
  {
  }

  lemma InterruptedClaimIsRepeated(trace: seq<Mark>, rows: Rows, saved: Saved, r: Rules)
    requires Lonely(saved, r) && Legal(trace, saved, r)
    requires rows == map[0 := Delivery(Sending, NoDetail, 1, Some(0), None, None)]
    requires Replay(trace, saved, r) == Db(saved, rows, None, 0, None, None)
    ensures Legal(trace + [Started(0)] + [Requeued(0)] + [Claimed(0, 0)] + [Accepted(0)], saved, r)
  {
    hide Legal, Replay, Justified, Lonely;
    var requeued, row := trace + [Started(0)] + [Requeued(0)], Delivery(Retry, Interrupted, 1, Some(0), None, None);
    InterruptedClaimIsRequeued(trace, rows, saved, r);
    var db := Db(saved, rows[0 := row], None, 0, Some(Cycle([0], SENDS_PER_CYCLE, false)), None);
    LonelyIsClaimable(db, row, r);
    ClaimedAndAccepted(requeued, db, saved, r);
  }

  /** The outbox prefers a duplicate to a loss: the interrupted send is claimed and accepted again. */
  lemma CrashMayDuplicate(saved: Saved, r: Rules)
    requires Lonely(saved, r)
    ensures var trace := UpToTheCrash() + [Started(0)] + [Requeued(0)] + [Claimed(0, 0)] + [Accepted(0)];
      Legal(trace, saved, r) && Acceptances(trace, 0) == 2
  {
    var crashed := UpToTheCrash();
    CrashLeavesAClaim(Delivery(Sending, NoDetail, 1, Some(0), None, None), saved, r);
    InterruptedClaimIsRepeated(crashed, Replay(crashed, saved, r).rows, saved, r);
    AcceptancesOf(crashed);
  }

  lemma AcceptancesOf(crashed: seq<Mark>)
    requires crashed == UpToTheCrash()
    ensures Acceptances(crashed + [Started(0)] + [Requeued(0)] + [Claimed(0, 0)] + [Accepted(0)], 0) == 2
  {
    OneMoreAcceptance([], Started(0));
    OneMoreAcceptance([] + [Started(0)], Claimed(0, 0));
    OneMoreAcceptance([] + [Started(0)] + [Claimed(0, 0)], Accepted(0));
    OneMoreAcceptance([] + [Started(0)] + [Claimed(0, 0)] + [Accepted(0)], Crashed);
    OneMoreAcceptance(crashed, Started(0));
    OneMoreAcceptance(crashed + [Started(0)], Requeued(0));
    OneMoreAcceptance(crashed + [Started(0)] + [Requeued(0)], Claimed(0, 0));
    OneMoreAcceptance(crashed + [Started(0)] + [Requeued(0)] + [Claimed(0, 0)], Accepted(0));
  }

  lemma OneMoreAcceptance(trace: seq<Mark>, m: Mark)
    ensures Acceptances(trace + [m], 0) == Acceptances(trace, 0) + if m == Accepted(0) then 1 else 0
  {
  }
}
