/**
 * The Telegram outbox: what is stored per event and for the channel, which rows a delivery cycle
 * examines, and every commit a cycle can make. A run is the list of its commits, so a crash is a
 * run that stops between two of them.
 */
module Outbox {
  import opened Prelude
  import opened Incidents
  import opened Sequences
  import opened Sorting

  datatype Status = Sending | Retry | Sent | Failed | Skipped

  datatype Detail = NoDetail | Interrupted | AwaitingConfirmation | AwaitingData | ChannelDeferred | SendFailed
                  | NotConfirmed | Obsolete | Duplicate | Maintenance

  datatype Delivery = Delivery(status: Status, detail: Detail, attempts: nat, lastAttempt: Option<int>,
                               nextAttempt: Option<int>, deliveredAt: Option<int>)

  const RETRY_MAX := 3600
  const DEFER := 60
  const REPEAT_WINDOW := 86400
  const BATCH := 100
  const SENDS_PER_CYCLE: nat := 5

  /** The configured delay, and the questions a cycle asks about saved data. */
  datatype Rules = Rules(
    confirm: nat,
    alert: Event -> bool,
    ended: (Saved, nat) -> bool,
    relevance: (Saved, nat, int) -> Relevance,
    repeats: (Saved, nat, nat) -> bool)

  type Rows = map<nat, Delivery>

  /** The stored row of an event, or the one that would be created for it. */
  function RowOf(rows: Rows, id: nat): Delivery {
    if id in rows then rows[id] else Delivery(Retry, NoDetail, 0, None, None, None)
  }

  function WithStatus(row: Delivery, status: Status, detail: Detail): Delivery {
    row.(status := status, detail := detail, nextAttempt := None)
  }

  function OccurredAt(saved: Saved, id: nat): int {
    if id < |saved.log| then saved.log[id].occurredAt else 0
  }

  // ------------------------------------------------------------- backoff and provider hints

  function Pow2(n: nat): (p: nat)
    ensures p >= 1
  {
    if n == 0 then 1 else 2 * Pow2(n - 1)
  }

  /** The exponent is bounded as well as the delay: an incident is retried for as long as it lasts. */
  function Backoff(attempts: nat): int {
    Min(60 * Pow2(Min(Max(attempts - 1, 0), 6)), RETRY_MAX)
  }

  /** What the provider may answer as its waiting time, before it is bounded. */
  datatype Hint = NoHint | Seconds(s: int) | NotANumber

  function Bounded(h: Hint): Option<int> {
    match h
    case NoHint => None
    case Seconds(s) => if s > 0 then Some(Min(s, RETRY_MAX)) else Some(60)
    case NotANumber => Some(60)
  }

  function Delay(attempts: nat, h: Hint): int {
    Max(Backoff(attempts), if Bounded(h).Some? then Bounded(h).value else 0)
  }

  // ------------------------------------------------------------- the batch

  /** Not finished: never recorded, waiting, interrupted, or skipped by an older release. */
  predicate Queued(rows: Rows, id: nat) {
    || id !in rows
    || rows[id].status.Sending? || rows[id].status.Retry? || rows[id].status.Failed?
    || (rows[id].status.Skipped? && rows[id].detail.Maintenance?)
  }

  predicate Due(rows: Rows, id: nat, now: int) {
    RowOf(rows, id).nextAttempt.None? || RowOf(rows, id).nextAttempt.value <= now
  }

  predicate Candidate(saved: Saved, rows: Rows, id: nat, now: int, r: Rules) {
    && id < |saved.log|
    && saved.log[id].occurredAt <= now
    && r.alert(saved.log[id])
    && Queued(rows, id)
    && Due(rows, id, now)
  }

  /** The order of the batch: retry time with "none" first, then occurrence, then id. */
  predicate Ahead(saved: Saved, rows: Rows, a: nat, b: nat) {
    var x, y := RowOf(rows, a).nextAttempt, RowOf(rows, b).nextAttempt;
    if x != y then y.Some? && (x.None? || x.value < y.value)
    else if OccurredAt(saved, a) != OccurredAt(saved, b) then OccurredAt(saved, a) < OccurredAt(saved, b)
    else a < b
  }

  function AheadIn(saved: Saved, rows: Rows): (nat, nat) -> bool {
    (a: nat, b: nat) => Ahead(saved, rows, a, b)
  }

  function CandidateIn(saved: Saved, rows: Rows, now: int, r: Rules): nat -> bool {
    (id: nat) => Candidate(saved, rows, id, now, r)
  }

  function Ids(n: nat): seq<nat> {
    seq(n, i => i)
  }

  /** All candidates, in order. */
  function Candidates(saved: Saved, rows: Rows, now: int, r: Rules): seq<nat> {
    SortBy(Filter(Ids(|saved.log|), CandidateIn(saved, rows, now, r)), AheadIn(saved, rows))
  }

  function Batch(saved: Saved, rows: Rows, now: int, r: Rules): (batch: seq<nat>)
    ensures |batch| <= BATCH
  {
    var all := Candidates(saved, rows, now, r);
    if |all| <= BATCH then all else all[..BATCH]
  }

  // ------------------------------------------------------------- state and commits

  datatype Cycle = Cycle(pending: seq<nat>, sendsLeft: nat, blocked: bool)

  /** A claimed send whose outcome is not stored yet. */
  datatype Flight = Flight(id: nat, at: int, accepted: bool)

  /** The database, the latest clock reading, and what a running cycle holds in memory. */
  datatype Db = Db(saved: Saved, rows: Rows, cooldown: Option<int>, clock: int, cycle: Option<Cycle>,
                   flight: Option<Flight>)

  function Empty(saved: Saved): Db {
    Db(saved, map[], None, 0, None, None)
  }

  datatype Mark =
    | Collected(saved: Saved)
    | Started(now: int)
    | Requeued(id: nat)
    | Deferred(id: nat, now: int, why: Detail)
    | Dropped(id: nat, now: int, why: Detail)
    | Claimed(id: nat, now: int)
    | Accepted(id: nat)
    | Refused(id: nat, now: int, hint: Hint)
    | Delivered(id: nat)
    | Finished
    | Crashed

  function ClampCooldown(cooldown: Option<int>, now: int): Option<int> {
    if cooldown.Some? && cooldown.value > now + RETRY_MAX then Some(now + RETRY_MAX) else cooldown
  }

  function ClampRow(row: Delivery, now: int): Delivery {
    if row.status.Retry? && row.attempts > 0 && row.nextAttempt.Some? && row.nextAttempt.value > now + RETRY_MAX
    then row.(nextAttempt := Some(now + RETRY_MAX)) else row
  }

  function ClampRows(rows: Rows, now: int): Rows {
    map id | id in rows :: ClampRow(rows[id], now)
  }

  function Embargoed(cooldown: Option<int>, now: int): bool {
    cooldown.Some? && cooldown.value > now
  }

  function DueAfterDefer(db: Db, id: nat, now: int, why: Detail, r: Rules): int {
    if why.AwaitingConfirmation? then OccurredAt(db.saved, id) + r.confirm else now + DEFER
  }

  function Popped(db: Db): Option<Cycle> {
    match db.cycle
    case None => None
    case Some(c) => Some(if c.pending == [] then c else c.(pending := c.pending[1..]))
  }

  function OneSendLess(cycle: Option<Cycle>): Option<Cycle> {
    match cycle
    case None => None
    case Some(c) => Some(if c.sendsLeft == 0 then c else c.(sendsLeft := c.sendsLeft - 1))
  }

  function BlockedCycle(cycle: Option<Cycle>): Option<Cycle> {
    match cycle
    case None => None
    case Some(c) => Some(c.(blocked := true))
  }

  function DeferredRow(db: Db, id: nat, now: int, why: Detail, r: Rules): Delivery {
    WithStatus(RowOf(db.rows, id), Retry, why).(nextAttempt := Some(DueAfterDefer(db, id, now, why, r)))
  }

  function ClaimedRow(row: Delivery, now: int): Delivery {
    WithStatus(row, Sending, NoDetail).(attempts := row.attempts + 1, lastAttempt := Some(now))
  }

  function RefusedRow(row: Delivery, now: int, hint: Hint): Delivery {
    WithStatus(row, Retry, SendFailed).(nextAttempt := Some(now + Delay(row.attempts, hint)))
  }

  function DeliveredRow(row: Delivery, flight: Option<Flight>): Delivery {
    WithStatus(row, Sent, NoDetail).(deliveredAt := if flight.Some? then Some(flight.value.at) else None)
  }

  /** What a cycle has before it looks at its first candidate. */
  function Begun(db: Db, now: int, r: Rules): Db {
    var rows, cooldown := ClampRows(db.rows, now), ClampCooldown(db.cooldown, now);
    Db(db.saved, rows, cooldown, now,
       Some(Cycle(Batch(db.saved, rows, now, r), SENDS_PER_CYCLE, Embargoed(cooldown, now))), None)
  }

  /** The effect of one commit. */
  function Apply(db: Db, m: Mark, r: Rules): Db {
    match m
    case Collected(saved) => db.(saved := saved)
    case Started(now) => Begun(db, now, r)
    case Requeued(id) => db.(rows := db.rows[id := WithStatus(RowOf(db.rows, id), Retry, Interrupted)])
    case Deferred(id, now, why) =>
      db.(rows := db.rows[id := DeferredRow(db, id, now, why, r)], clock := now, cycle := Popped(db))
    case Dropped(id, now, why) =>
      db.(rows := db.rows[id := WithStatus(RowOf(db.rows, id), Skipped, why)], clock := now, cycle := Popped(db))
    case Claimed(id, now) =>
      db.(rows := db.rows[id := ClaimedRow(RowOf(db.rows, id), now)], clock := now, cycle := OneSendLess(Popped(db)),
          flight := Some(Flight(id, now, false)))
    case Accepted(id) => db.(flight := Some(Flight(id, if db.flight.Some? then db.flight.value.at else 0, true)))
    case Refused(id, now, hint) =>
      db.(rows := db.rows[id := RefusedRow(RowOf(db.rows, id), now, hint)], clock := now,
          cycle := BlockedCycle(db.cycle),
          cooldown := if Bounded(hint).Some? then Some(now + Bounded(hint).value) else db.cooldown, flight := None)
    case Delivered(id) => db.(rows := db.rows[id := DeliveredRow(RowOf(db.rows, id), db.flight)], flight := None)
    case Finished => db.(cycle := None)
    case Crashed => db.(cycle := None, flight := None)
  }

  // ------------------------------------------------------------- when a commit may happen

  predicate IsWarning(saved: Saved, id: nat) {
    id < |saved.log| && saved.log[id].severity.Warning?
  }

  predicate Unconfirmed(saved: Saved, id: nat, now: int, r: Rules) {
    IsWarning(saved, id) && OccurredAt(saved, id) > now - r.confirm
  }

  predicate Ended(saved: Saved, id: nat, r: Rules) {
    IsWarning(saved, id) && r.ended(saved, id)
  }

  /** A message about the same incident went out less than a day ago and still stands. */
  predicate SameIncidentSent(saved: Saved, rows: Rows, id: nat, now: int, r: Rules) {
    exists other :: other in rows && rows[other].status.Sent? && rows[other].deliveredAt.Some?
                    && rows[other].deliveredAt.value >= now - REPEAT_WINDOW && r.repeats(saved, other, id)
  }

  /** The next candidate of a running cycle. */
  predicate Examining(db: Db, id: nat) {
    && db.cycle.Some? && db.flight.None?
    && db.cycle.value.pending != [] && db.cycle.value.pending[0] == id
  }

  predicate Interruptible(row: Delivery) {
    row.status.Sending? || row.status.Failed?
  }

  /** The candidate is being decided on, at this time. */
  predicate Deciding(db: Db, id: nat, now: int) {
    Examining(db, id) && now >= db.clock && !Interruptible(RowOf(db.rows, id))
  }

  /** Confirmed, still relevant and not a repeat: only the channel can hold it back. */
  predicate Sendable(saved: Saved, rows: Rows, id: nat, now: int, r: Rules) {
    && !Unconfirmed(saved, id, now, r) && !Ended(saved, id, r)
    && r.relevance(saved, id, now) == Current
    && !SameIncidentSent(saved, rows, id, now, r)
  }

  predicate MayDefer(db: Db, id: nat, now: int, why: Detail, r: Rules) {
    match why
    case AwaitingConfirmation => Unconfirmed(db.saved, id, now, r)
    case AwaitingData =>
      !Unconfirmed(db.saved, id, now, r) && !Ended(db.saved, id, r) && r.relevance(db.saved, id, now) == Unknown
    case ChannelDeferred =>
      && Sendable(db.saved, db.rows, id, now, r) && db.cycle.Some?
      && (db.cycle.value.blocked || db.cycle.value.sendsLeft == 0)
    case _ => false
  }

  predicate MayDrop(db: Db, id: nat, now: int, why: Detail, r: Rules) {
    && !Unconfirmed(db.saved, id, now, r)
    && match why
       case NotConfirmed => Ended(db.saved, id, r)
       case Obsolete => !Ended(db.saved, id, r) && r.relevance(db.saved, id, now) == Over
       case Duplicate =>
         && !Ended(db.saved, id, r) && r.relevance(db.saved, id, now) == Current
         && SameIncidentSent(db.saved, db.rows, id, now, r)
       case _ => false
  }

  predicate MayClaim(db: Db, id: nat, now: int, r: Rules) {
    && Sendable(db.saved, db.rows, id, now, r)
    && db.cycle.Some? && !db.cycle.value.blocked && db.cycle.value.sendsLeft > 0
  }

  ghost predicate Justified(db: Db, m: Mark, r: Rules) {
    match m
    case Collected(saved) => db.saved.log <= saved.log && InTimeOrder(saved.log)
    case Started(now) => db.cycle.None? && db.flight.None? && now >= db.clock
    case Requeued(id) => Examining(db, id) && Interruptible(RowOf(db.rows, id))
    case Deferred(id, now, why) => Deciding(db, id, now) && MayDefer(db, id, now, why, r)
    case Dropped(id, now, why) => Deciding(db, id, now) && MayDrop(db, id, now, why, r)
    case Claimed(id, now) => Deciding(db, id, now) && MayClaim(db, id, now, r)
    case Accepted(id) => db.flight.Some? && db.flight.value.id == id && !db.flight.value.accepted
    case Refused(id, now, hint) => db.flight.Some? && db.flight.value.id == id && now >= db.clock
    case Delivered(id) => db.flight.Some? && db.flight.value.id == id && db.flight.value.accepted
    case Finished => db.cycle.Some? && db.flight.None? && db.cycle.value.pending == []
    case Crashed => db.cycle.Some?
  }

  // ------------------------------------------------------------- runs

  function Replay(trace: seq<Mark>, saved: Saved, r: Rules): Db {
    if trace == [] then Empty(saved) else Apply(Replay(trace[..|trace| - 1], saved, r), trace[|trace| - 1], r)
  }

  ghost predicate Legal(trace: seq<Mark>, saved: Saved, r: Rules) {
    if trace == [] then InTimeOrder(saved.log) else
      && Legal(trace[..|trace| - 1], saved, r)
      && Justified(Replay(trace[..|trace| - 1], saved, r), trace[|trace| - 1], r)
  }

  lemma OneMore(trace: seq<Mark>, m: Mark, saved: Saved, r: Rules)
    ensures Replay(trace + [m], saved, r) == Apply(Replay(trace, saved, r), m, r)
    ensures Legal(trace + [m], saved, r) <==> Legal(trace, saved, r) && Justified(Replay(trace, saved, r), m, r)
  {
  }

  lemma {:induction false} LegalPrefix(trace: seq<Mark>, i: nat, saved: Saved, r: Rules)
    requires i <= |trace| && Legal(trace, saved, r)
    ensures Legal(trace[..i], saved, r)
    decreases |trace|
  {
    if i < |trace| {
      var front := trace[..|trace| - 1];
      LegalPrefix(front, i, saved, r);
      assert front[..i] == trace[..i];
    } else {
      assert trace[..i] == trace;
    }
  }

  /** Every commit of a legal run was justified by the state it found. */
  lemma LegalAt(trace: seq<Mark>, i: nat, saved: Saved, r: Rules)
    requires i < |trace| && Legal(trace, saved, r)
    ensures Legal(trace[..i], saved, r) && Justified(Replay(trace[..i], saved, r), trace[i], r)
    ensures Replay(trace[..i + 1], saved, r) == Apply(Replay(trace[..i], saved, r), trace[i], r)
  {
    LegalPrefix(trace, i, saved, r);
    LegalPrefix(trace, i + 1, saved, r);
    assert trace[..i + 1][..i] == trace[..i];
  }
}
