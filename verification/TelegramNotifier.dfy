/**
 * The delivery cycle as it runs: it reads the clock, commits row by row, sends between commits, and
 * may stop at any of them. Its commits form a legal run of the outbox.
 */
module TelegramNotifier {
  import opened Prelude
  import opened Incidents
  import opened Outbox

  /** What became of one candidate; `Lost` means that the process stopped there. */
  datatype Handled = WasDeferred | WasSkipped | WasSent | WasRefused | Lost

  /** What the transport reports for one send. */
  datatype Reply = Taken | Rejected(hint: Hint)

  /** The counters a cycle returns. */
  datatype Tally = Tally(sent: nat, failed: nat, skipped: nat, deferred: nat)

  function Counted(t: Tally, m: Mark): Tally {
    match m
    case Delivered(_) => t.(sent := t.sent + 1)
    case Refused(_, _, _) => t.(failed := t.failed + 1)
    case Dropped(_, _, _) => t.(skipped := t.skipped + 1)
    case Deferred(_, _, _) => t.(deferred := t.deferred + 1)
    case _ => t
  }

  function Total(t: Tally): nat {
    t.sent + t.failed + t.skipped + t.deferred
  }

  function After(h: Handled, t: Tally): Tally {
    match h
    case WasSent => t.(sent := t.sent + 1)
    case WasRefused => t.(failed := t.failed + 1)
    case WasSkipped => t.(skipped := t.skipped + 1)
    case WasDeferred => t.(deferred := t.deferred + 1)
    case Lost => t
  }

  /** The commits after `before` are one cycle from start to finish over a batch of this size. */
  ghost predicate WholeCycle(before: seq<Mark>, db: Db, after: seq<Mark>, size: nat, r: Rules) {
    && |after| > |before| + 1 && after[|before|].Started? && after[|after| - 1].Finished?
    && var now := after[|before|].now;
       size == |Batch(db.saved, ClampRows(db.rows, now), now, r)|
  }

  lemma CycleIsWhole(before: seq<Mark>, db: Db, now: int, after: seq<Mark>, size: nat, r: Rules)
    requires before + [Started(now)] <= after && after[|after| - 1].Finished?
    requires size == |Batch(db.saved, ClampRows(db.rows, now), now, r)|
    ensures WholeCycle(before, db, after, size, r)
  {
    assert (before + [Started(now)])[|before|] == Started(now);
  }

  function Spent(sendsLeft: nat, h: Handled): nat {
    if (h.WasSent? || h.WasRefused?) && sendsLeft > 0 then sendsLeft - 1 else sendsLeft
  }

  class Notifier {
    const r: Rules
    ghost const first: Saved
    var saved: Saved
    var rows: Rows
    var cooldown: Option<int>
    var clock: int
    /** The commits so far, and the state they lead to. */
    ghost var trace: seq<Mark>
    ghost var db: Db
    /** The commits of each kind since the last start of a cycle. */
    ghost var counts: Tally

    ghost predicate Valid()
      reads this
    {
      && Legal(trace, first, r) && db == Replay(trace, first, r)
      && db.saved == saved && db.rows == rows && db.cooldown == cooldown && db.clock == clock
    }

    ghost predicate Idle()
      reads this
    {
      Valid() && db.cycle.None? && db.flight.None?
    }

    constructor (r: Rules, saved: Saved)
      requires InTimeOrder(saved.log)
      ensures Idle() && this.r == r && first == saved && trace == []
    {
      this.r, first, this.saved, rows, cooldown, clock := r, saved, saved, map[], None, 0;
      trace, db, counts := [], Empty(saved), Tally(0, 0, 0, 0);
    }

    /** The clock never goes back. */
    method ReadClock() returns (now: int)
      ensures now >= clock
    {
      now :| now >= clock;
    }

    method Survives() returns (alive: bool)
    {
      alive := *;
    }

    ghost method Commit(m: Mark)
      requires Legal(trace, first, r) && db == Replay(trace, first, r) && Justified(db, m, r)
      modifies this`trace, this`db, this`counts
      ensures trace == old(trace) + [m] && Legal(trace, first, r) && db == Replay(trace, first, r)
      ensures db == Apply(old(db), m, r)
      ensures counts == if m.Started? then Tally(0, 0, 0, 0) else Counted(old(counts), m)
    {
      OneMore(trace, m, first, r);
      trace, db := trace + [m], Apply(db, m, r);
      counts := if m.Started? then Tally(0, 0, 0, 0) else Counted(counts, m);
    }

    /** The collector commits between any two commits of a cycle. */
    method Collect(next: Saved)
      requires Valid() && saved.log <= next.log && InTimeOrder(next.log)
      modifies this
      ensures Valid() && trace == old(trace) + [Collected(next)]
      ensures db == Apply(old(db), Collected(next), r) && counts == Counted(old(counts), Collected(next))
      ensures saved == next
    {
      hide Legal, Replay, Justified;
      saved := next;
      Commit(Collected(next));
    }

    /** Whenever a cycle does not hold the lock, the collector may commit. */
    method ReleaseLock()
      requires Valid()
      modifies this
      ensures Valid() && old(trace) <= trace && counts == old(counts)
      ensures db == old(db).(saved := saved)
    {
      var collected: bool, next: Saved := *, *;
      if collected && saved.log <= next.log && InTimeOrder(next.log) {
        Collect(next);
      }
    }

    method Defer(id: nat, now: int, why: Detail, until: Option<int>)
      requires Valid() && Justified(db, Deferred(id, now, why), r)
      requires until == if why.AwaitingConfirmation? then Some(OccurredAt(saved, id) + r.confirm) else None
      modifies this
      ensures Valid() && trace == old(trace) + [Deferred(id, now, why)]
      ensures db == Apply(old(db), Deferred(id, now, why), r) && counts == Counted(old(counts), Deferred(id, now, why))
    {
      hide Legal, Replay, Justified;
      var delivery := WithStatus(RowOf(rows, id), Retry, why);
      delivery := delivery.(nextAttempt := Some(if until.Some? then until.value else now + DEFER));
      rows, clock := rows[id := delivery], now;
      Commit(Deferred(id, now, why));
    }

    method Skip(id: nat, now: int, why: Detail)
      requires Valid() && Justified(db, Dropped(id, now, why), r)
      modifies this
      ensures Valid() && trace == old(trace) + [Dropped(id, now, why)]
      ensures db == Apply(old(db), Dropped(id, now, why), r) && counts == Counted(old(counts), Dropped(id, now, why))
    {
      hide Legal, Replay, Justified;
      rows, clock := rows[id := WithStatus(RowOf(rows, id), Skipped, why)], now;
      Commit(Dropped(id, now, why));
    }

    method Requeue(id: nat)
      requires Valid() && Justified(db, Requeued(id), r)
      modifies this
      ensures Valid() && trace == old(trace) + [Requeued(id)]
      ensures db == Apply(old(db), Requeued(id), r) && counts == Counted(old(counts), Requeued(id))
    {
      hide Legal, Replay, Justified;
      rows := rows[id := WithStatus(RowOf(rows, id), Retry, Interrupted)];
      Commit(Requeued(id));
    }

    method Claim(id: nat, now: int)
      requires Valid() && Justified(db, Claimed(id, now), r)
      modifies this
      ensures Valid() && trace == old(trace) + [Claimed(id, now)]
      ensures db == Apply(old(db), Claimed(id, now), r) && counts == Counted(old(counts), Claimed(id, now))
    {
      hide Legal, Replay, Justified;
      var delivery := WithStatus(RowOf(rows, id), Sending, NoDetail);
      delivery := delivery.(attempts := delivery.attempts + 1);
      delivery := delivery.(lastAttempt := Some(now));
      rows, clock := rows[id := delivery], now;
      Commit(Claimed(id, now));
    }

    /** The longer of the backoff and what the provider asked for. */
    method Rescheduled(delivery: Delivery, now: int, hint: Hint) returns (next: Delivery)
      ensures next == RefusedRow(delivery, now, hint)
    {
      var backoff, wait := Backoff(delivery.attempts), Bounded(hint);
      var delay := if wait.Some? && wait.value > backoff then wait.value else backoff;
      next := WithStatus(delivery, Retry, SendFailed);
      next := next.(nextAttempt := Some(now + delay));
    }

    method Embargo(now: int, hint: Hint)
      modifies this`cooldown
      ensures cooldown == if Bounded(hint).Some? then Some(now + Bounded(hint).value) else old(cooldown)
    {
      if Bounded(hint).Some? {
        cooldown := Some(now + Bounded(hint).value);
      }
    }

    /** The retry time of the row and the embargo of the channel are one commit. */
    method RecordSendFailure(id: nat, now: int, hint: Hint)
      requires Valid() && Justified(db, Refused(id, now, hint), r)
      modifies this
      ensures Valid() && trace == old(trace) + [Refused(id, now, hint)]
      ensures db == Apply(old(db), Refused(id, now, hint), r) && counts == Counted(old(counts), Refused(id, now, hint))
    {
      hide Legal, Replay, Justified;
      var delivery := Rescheduled(RowOf(rows, id), now, hint);
      rows, clock := rows[id := delivery], now;
      Embargo(now, hint);
      Commit(Refused(id, now, hint));
    }

    method MarkSent(id: nat, at: int)
      requires Valid() && db.flight == Some(Flight(id, at, true))
      modifies this
      ensures Valid() && trace == old(trace) + [Delivered(id)]
      ensures db == Apply(old(db), Delivered(id), r) && counts == Counted(old(counts), Delivered(id))
    {
      rows := rows[id := WithStatus(RowOf(rows, id), Sent, NoDetail).(deliveredAt := Some(at))];
      Commit(Delivered(id));
    }

    /** The repairs and the batch, in one transaction. */
    method Start(now: int) returns (batch: seq<nat>, blocked: bool)
      requires Idle() && now >= clock
      modifies this
      ensures Valid() && trace == old(trace) + [Started(now)] && saved == old(saved) && counts == Tally(0, 0, 0, 0)
      ensures db.cycle == Some(Cycle(batch, SENDS_PER_CYCLE, blocked)) && db.flight.None?
      ensures batch == Batch(old(db).saved, ClampRows(old(db).rows, now), now, r)
    {
      var latest := now + RETRY_MAX;
      if cooldown.Some? && cooldown.value > latest {
        cooldown := Some(latest);
      }
      rows := map id | id in rows :: ClampRow(rows[id], now);
      blocked := cooldown.Some? && cooldown.value > now;
      batch := Batch(saved, rows, now, r);
      clock := now;
      Commit(Started(now));
    }

    /** Hands the message to the transport; the collector may commit in the meantime. */
    method Send(id: nat) returns (alive: bool, reply: Reply)
      requires Valid() && db.flight.Some? && db.flight.value.id == id && !db.flight.value.accepted
      modifies this
      ensures Valid() && old(trace) <= trace && db.cycle == old(db.cycle)
      ensures db.flight.Some? && db.flight.value.id == id && db.flight.value.at == old(db.flight.value.at)
      ensures alive && reply.Taken? ==> db.flight.value.accepted
      ensures counts == old(counts)
    {
      var accepted: bool, answered: bool, hint: Hint := *, *, *;
      if accepted {
        Commit(Accepted(id));
      }
      ReleaseLock();
      reply := if accepted && answered then Taken else Rejected(hint);
      alive := Survives();
    }

    /** The process stops between two commits of a cycle. */
    method Stop()
      requires Valid() && db.cycle.Some?
      modifies this
      ensures Idle() && old(trace) <= trace
    {
      Commit(Crashed);
    }

    /** The last transaction of a cycle only reads, for the health report. */
    method Finish() returns (finished: bool)
      requires Valid() && db.cycle.Some? && db.cycle.value.pending == [] && db.flight.None?
      modifies this
      ensures Idle() && old(trace) <= trace && counts == old(counts)
      ensures trace != [] && trace[|trace| - 1] == (if finished then Finished else Crashed)
    {
      ReleaseLock();
      finished := Survives();
      Commit(if finished then Finished else Crashed);
    }

    /** Stores the outcome of a send that was answered. */
    method Settle(id: nat, at: int, reply: Reply, ghost rest: seq<nat>, ghost sendsLeft: nat) returns (h: Handled)
      requires Valid() && db.cycle == Some(Cycle(rest, sendsLeft, false))
      requires db.flight.Some? && db.flight.value.id == id && db.flight.value.at == at
      requires reply.Taken? ==> db.flight.value.accepted
      modifies this
      ensures Valid() && old(trace) <= trace && db.flight.None?
      ensures h == (if reply.Taken? then WasSent else WasRefused)
      ensures db.cycle == Some(Cycle(rest, sendsLeft, h.WasRefused?))
      ensures counts == After(h, old(counts))
    {
      if reply.Rejected? {
        var failedAt := ReadClock();
        RecordSendFailure(id, failedAt, reply.hint);
        return WasRefused;
      }
      MarkSent(id, at);
      return WasSent;
    }

    /** Claims, sends and stores the outcome of one message. */
    method Attempt(id: nat, now: int, ghost pending: seq<nat>, ghost sendsLeft: nat) returns (h: Handled)
      requires Valid() && Justified(db, Claimed(id, now), r)
      requires db.cycle == Some(Cycle(pending, sendsLeft, false)) && sendsLeft > 0 && pending != []
      modifies this
      ensures Valid() && old(trace) <= trace && (h.Lost? || h.WasSent? || h.WasRefused?)
      ensures h.Lost? ==> Idle()
      ensures !h.Lost? ==> db.cycle == Some(Cycle(pending[1..], sendsLeft - 1, h.WasRefused?)) && db.flight.None?
      ensures !h.Lost? ==> counts == After(h, old(counts))
    {
      Claim(id, now);
      var alive := Survives();
      if alive {
        var reply: Reply;
        alive, reply := Send(id);
        if alive {
          h := Settle(id, now, reply, pending[1..], sendsLeft - 1);
          return;
        }
      }
      Stop();
      h := Lost;
    }

    /** Decides on one candidate, under a lock that was released after the one before it. */
    method Examine(id: nat, ghost pending: seq<nat>, sendsLeft: nat, blocked: bool) returns (h: Handled)
      requires Valid() && db.cycle == Some(Cycle(pending, sendsLeft, blocked)) && db.flight.None?
      requires pending != [] && pending[0] == id
      modifies this
      ensures Valid() && old(trace) <= trace
      ensures h.Lost? ==> Idle()
      ensures !h.Lost? ==>
        && db.flight.None?
        && db.cycle == Some(Cycle(pending[1..], Spent(sendsLeft, h), blocked || h.WasRefused?))
      ensures !h.Lost? ==> counts == After(h, old(counts))
      ensures h.WasSent? || h.WasRefused? ==> sendsLeft > 0
    {
      ReleaseLock();
      var now := ReadClock();
      if id in rows && (rows[id].status.Sending? || rows[id].status.Failed?) {
        Requeue(id);
        var alive := Survives();
        if !alive {
          Stop();
          return Lost;
        }
      }
      h := Decide(id, now, pending, sendsLeft, blocked);
    }

    /** A confirmed and relevant alert is sent, unless it repeats one or the channel is held back. */
    method Admit(id: nat, now: int, ghost pending: seq<nat>, sendsLeft: nat, blocked: bool) returns (h: Handled)
      requires Valid() && db.cycle == Some(Cycle(pending, sendsLeft, blocked)) && pending != [] && Deciding(db, id, now)
      requires !Unconfirmed(saved, id, now, r) && !Ended(saved, id, r) && r.relevance(saved, id, now) == Current
      modifies this
      ensures Valid() && old(trace) <= trace
      ensures h.Lost? ==> Idle()
      ensures !h.Lost? ==>
        && db.flight.None?
        && db.cycle == Some(Cycle(pending[1..], Spent(sendsLeft, h), blocked || h.WasRefused?))
      ensures !h.Lost? ==> counts == After(h, old(counts))
      ensures h.WasSent? || h.WasRefused? ==> sendsLeft > 0
    {
      if SameIncidentSent(saved, rows, id, now, r) {
        Skip(id, now, Duplicate);
        return WasSkipped;
      }
      if blocked || sendsLeft <= 0 {
        Defer(id, now, ChannelDeferred, None);
        return WasDeferred;
      }
      h := Attempt(id, now, pending, sendsLeft);
    }

    method Decide(id: nat, now: int, ghost pending: seq<nat>, sendsLeft: nat, blocked: bool) returns (h: Handled)
      requires Valid() && db.cycle == Some(Cycle(pending, sendsLeft, blocked)) && pending != [] && Deciding(db, id, now)
      modifies this
      ensures Valid() && old(trace) <= trace
      ensures h.Lost? ==> Idle()
      ensures !h.Lost? ==>
        && db.flight.None?
        && db.cycle == Some(Cycle(pending[1..], Spent(sendsLeft, h), blocked || h.WasRefused?))
      ensures !h.Lost? ==> counts == After(h, old(counts))
      ensures h.WasSent? || h.WasRefused? ==> sendsLeft > 0
    {
      if IsWarning(saved, id) {
        if OccurredAt(saved, id) > now - r.confirm {
          Defer(id, now, AwaitingConfirmation, Some(OccurredAt(saved, id) + r.confirm));
          return WasDeferred;
        }
        if r.ended(saved, id) {
          Skip(id, now, NotConfirmed);
          return WasSkipped;
        }
      }
      var relevance := r.relevance(saved, id, now);
      if relevance.Over? {
        Skip(id, now, Obsolete);
        return WasSkipped;
      }
      if !relevance.Current? {
        Defer(id, now, AwaitingData, None);
        return WasDeferred;
      }
      h := Admit(id, now, pending, sendsLeft, blocked);
    }

    /** One cycle; it either finishes, or the process stops in it. */
    method RunCycle() returns (finished: bool, tally: Tally, size: nat)
      requires Idle()
      modifies this
      ensures Idle() && old(trace) <= trace
      // The whole batch was dealt with, and every candidate is counted once, under what was committed for it.
      ensures finished ==> WholeCycle(old(trace), old(db), trace, size, r)
      ensures finished ==> Total(tally) == size && tally == counts
    {
      var now := ReadClock();
      var batch, blocked := Start(now);
      size := |batch|;
      finished, tally := RunBatch(trace, batch, blocked);
      if finished {
        CycleIsWhole(old(trace), old(db), now, trace, size, r);
      }
    }

    /** Everything after the start of a cycle. */
    method RunBatch(ghost begun: seq<Mark>, batch: seq<nat>, blocked: bool) returns (finished: bool, tally: Tally)
      requires Proceeding(begun, batch, SENDS_PER_CYCLE, blocked, Tally(0, 0, 0, 0))
      modifies this
      ensures Idle() && begun <= trace
      ensures finished ==> trace != [] && trace[|trace| - 1].Finished? && Total(tally) == |batch| && tally == counts
    {
      hide Legal, Replay;
      finished, tally := ExamineAll(begun, batch, blocked, Tally(0, 0, 0, 0));
      if finished {
        finished := Finish();
      }
    }

    /** Between two candidates of a cycle whose run began with these commits. */
    ghost predicate Proceeding(begun: seq<Mark>, pending: seq<nat>, sendsLeft: nat, blocked: bool, tally: Tally)
      reads this
    {
      && Valid() && begun <= trace
      && db.cycle == Some(Cycle(pending, sendsLeft, blocked)) && db.flight.None? && tally == counts
    }

    /** One candidate, and what it does to the cycle's own variables. */
    method ExamineFirst(ghost begun: seq<Mark>, pending: seq<nat>, sendsLeft: nat, blocked: bool, tally: Tally)
      returns (alive: bool, left: nat, stopped: bool, counted: Tally)
      requires pending != [] && Proceeding(begun, pending, sendsLeft, blocked, tally)
      modifies this
      ensures !alive ==> Idle() && begun <= trace
      ensures alive ==> Proceeding(begun, pending[1..], left, stopped, counted) && Total(counted) == Total(tally) + 1
    {
      var handled := Examine(pending[0], pending, sendsLeft, blocked);
      alive := !handled.Lost?;
      left, stopped, counted := Spent(sendsLeft, handled), blocked || handled.WasRefused?, After(handled, tally);
    }

    /** Every candidate in turn, with counters from zero, unless the process stops. */
    method ExamineAll(ghost begun: seq<Mark>, batch: seq<nat>, initiallyBlocked: bool, zero: Tally)
      returns (alive: bool, tally: Tally)
      requires Proceeding(begun, batch, SENDS_PER_CYCLE, initiallyBlocked, zero) && Total(zero) == 0
      modifies this
      ensures Total(tally) <= |batch|
      ensures if alive then Total(tally) == |batch| && Completed(begun, tally) else Idle() && begun <= trace
    {
      var pending, sendsLeft, blocked := batch, SENDS_PER_CYCLE, initiallyBlocked;
      alive, tally := true, zero;
      while pending != []
        invariant Proceeding(begun, pending, sendsLeft, blocked, tally)
        invariant Total(tally) + |pending| == |batch|
        decreases |pending|
      {
        var counted := tally;
        alive, sendsLeft, blocked, counted := ExamineFirst(begun, pending, sendsLeft, blocked, tally);
        if !alive {
          return;
        }
        pending, tally := pending[1..], counted;
      }
    }

    /** No candidate is left. */
    ghost predicate Completed(begun: seq<Mark>, tally: Tally)
      reads this
    {
      Valid() && begun <= trace && db.cycle.Some? && db.cycle.value.pending == [] && db.flight.None? && tally == counts
    }

    /** Cycles and collector steps in any order. */
    method AnyHistory(steps: nat)
      requires Idle()
      modifies this
      ensures Idle() && old(trace) <= trace
    {
      for i := 0 to steps
        invariant Idle() && old(trace) <= trace
      {
        var cycle: bool, next: Saved := *, *;
        if cycle {
          var finished, tally, size := RunCycle();
        } else if saved.log <= next.log && InTimeOrder(next.log) {
          Collect(next);
        }
      }
    }
  }
}
