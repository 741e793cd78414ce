/** E-mail alerts: one cycle marks what it sent or merged, and e-mails of a kind stay apart. */
module SmtpNotifier {
  import opened Prelude
  import opened Incidents

  const DAY_WINDOW := 1440 * 60

  datatype Config = Config(threshold: Severity, windowSeconds: int) {
    predicate Valid() {
      windowSeconds > 0
    }
  }

  function Rank(s: Severity): nat {
    match s
    case Info => 0
    case Warning => 1
    case Critical => 2
  }

  /** Slow-moving categories are repeated at most daily. */
  function Window(category: string, c: Config): int {
    if category == "controller_temperature" || category == "foreign_config_detected" then DAY_WINDOW
    else c.windowSeconds
  }

  function LongestWindow(c: Config): int {
    Max(c.windowSeconds, DAY_WINDOW)
  }

  predicate SameKind(a: Event, b: Event) {
    a.severity == b.severity && a.category == b.category && a.subject == b.subject
  }

  /** The log and the e-mail marker of its events. */
  datatype Mailbox = Mailbox(log: seq<Event>, notified: map<nat, int>, clock: int)

  /** One step of a run; an event is e-mailed, or merged into an e-mail that went out before. */
  datatype Mark = Recorded(event: Event) | Emailed(id: nat, at: int) | Merged(id: nat, at: int)

  predicate Pending(log: seq<Event>, notified: map<nat, int>, id: nat, since: int, c: Config) {
    && id < |log| && id !in notified
    && Rank(log[id].severity) >= Rank(c.threshold)
    && log[id].occurredAt >= since
  }

  /** Recent enough for its own category. */
  predicate Considered(log: seq<Event>, notified: map<nat, int>, id: nat, now: int, c: Config) {
    Pending(log, notified, id, now - LongestWindow(c), c) && log[id].occurredAt >= now - Window(log[id].category, c)
  }

  predicate NotifiedRecently(log: seq<Event>, notified: map<nat, int>, id: nat, since: int)
    requires id < |log|
  {
    exists other :: other in notified && other < |log| && other != id
                    && SameKind(log[other], log[id]) && notified[other] >= since
  }

  function Apply(m: Mailbox, s: Mark): Mailbox {
    match s
    case Recorded(e) => m.(log := m.log + [e])
    case Emailed(id, at) => m.(notified := m.notified[id := at], clock := at)
    case Merged(id, at) => m.(notified := m.notified[id := at], clock := at)
  }

  predicate Justified(m: Mailbox, s: Mark, c: Config) {
    match s
    case Recorded(e) => m.log == [] || m.log[|m.log| - 1].occurredAt <= e.occurredAt
    case Emailed(id, at) =>
      at >= m.clock && Considered(m.log, m.notified, id, at, c)
      && !NotifiedRecently(m.log, m.notified, id, at - Window(m.log[id].category, c))
    case Merged(id, at) =>
      at >= m.clock && Considered(m.log, m.notified, id, at, c)
      && NotifiedRecently(m.log, m.notified, id, at - Window(m.log[id].category, c))
  }

  function Replay(trace: seq<Mark>): Mailbox {
    if trace == [] then Mailbox([], map[], 0) else Apply(Replay(trace[..|trace| - 1]), trace[|trace| - 1])
  }

  predicate Legal(trace: seq<Mark>, c: Config) {
    trace == [] || (Legal(trace[..|trace| - 1], c) && Justified(Replay(trace[..|trace| - 1]), trace[|trace| - 1], c))
  }

  lemma OneMore(trace: seq<Mark>, s: Mark, c: Config)
    ensures Replay(trace + [s]) == Apply(Replay(trace), s)
    ensures Legal(trace + [s], c) <==> Legal(trace, c) && Justified(Replay(trace), s, c)
  {
  }

  lemma {:induction false} LegalPrefix(trace: seq<Mark>, i: nat, c: Config)
    requires i <= |trace| && Legal(trace, c)
    ensures Legal(trace[..i], c)
    decreases |trace|
  {
    if i < |trace| {
      LegalPrefix(trace[..|trace| - 1], i, c);
      assert trace[..|trace| - 1][..i] == trace[..i];
    } else {
      assert trace[..i] == trace;
    }
  }

  lemma LegalAt(trace: seq<Mark>, i: nat, c: Config)
    requires i < |trace| && Legal(trace, c)
    ensures Justified(Replay(trace[..i]), trace[i], c) && Replay(trace[..i + 1]) == Apply(Replay(trace[..i]), trace[i])
  {
    LegalPrefix(trace, i + 1, c);
    assert trace[..i + 1][..i] == trace[..i];
  }

  // ------------------------------------------------------------- spacing

  predicate Marked(m: Mailbox, id: nat, e: Event, at: int) {
    id < |m.log| && m.log[id] == e && id in m.notified && m.notified[id] == at
  }

  /** Once marked, an event keeps its mark and its text. */
  lemma MarkLastsOneStep(m: Mailbox, s: Mark, id: nat, e: Event, at: int, c: Config)
    requires Justified(m, s, c) && Marked(m, id, e, at)
    ensures Marked(Apply(m, s), id, e, at)
  {
  }

  lemma {:induction false} MarkLasts(trace: seq<Mark>, i: nat, k: nat, id: nat, e: Event, at: int, c: Config)
    requires Legal(trace, c) && i <= k <= |trace| && Marked(Replay(trace[..i]), id, e, at)
    ensures Marked(Replay(trace[..k]), id, e, at)
    decreases k
  {
    if i == k {
    } else {
      var before := Replay(trace[..k - 1]);
      MarkLasts(trace, i, k - 1, id, e, at, c);
      LegalAt(trace, k - 1, c);
      MarkLastsOneStep(before, trace[k - 1], id, e, at, c);
      assert Replay(trace[..k]) == Apply(before, trace[k - 1]);
    }
  }

  predicate Settles(s: Mark, id: nat, at: int) {
    s == Emailed(id, at) || s == Merged(id, at)
  }

  /**
   * After an event was e-mailed, or merged, the next e-mail of its kind is more than the window of
   * its category away. A merge counts as well: a kind that keeps recurring within its window is not
   * e-mailed again while it does.
   */
  lemma EmailsOfAKindAreSpaced(trace: seq<Mark>, i: nat, j: nat, a: nat, b: nat, first: int, second: int, c: Config)
    requires Legal(trace, c) && i < j < |trace| && Settles(trace[i], a, first) && trace[j] == Emailed(b, second)
    requires var log := Replay(trace[..j]).log; a < |log| && b < |log| && SameKind(log[a], log[b])
    ensures a != b && second - first > Window(Replay(trace[..j]).log[b].category, c)
  {
    LegalAt(trace, i, c);
    MarkLasts(trace, i + 1, j, a, Replay(trace[..i]).log[a], first, c);
    LegalAt(trace, j, c);
  }

  /** No event is e-mailed twice, nor e-mailed after it was merged. */
  lemma SettledOnce(trace: seq<Mark>, i: nat, j: nat, id: nat, first: int, second: int, c: Config)
    requires Legal(trace, c) && i < j < |trace| && Settles(trace[i], id, first)
    ensures !Settles(trace[j], id, second)
  {
    LegalAt(trace, i, c);
    MarkLasts(trace, i + 1, j, id, Replay(trace[..i]).log[id], first, c);
    LegalAt(trace, j, c);
  }

  // ------------------------------------------------------------- the cycle

  datatype Result = Result(attempted: nat, sent: nat, deduplicated: nat, failed: nat)

  /** The members of a listing with some property. */
  ghost predicate Those(s: set<nat>, ids: seq<nat>, p: nat -> bool) {
    forall id :: id in s <==> id in ids && p(id)
  }

  lemma OneMoreOfThose(s: set<nat>, ids: seq<nat>, id: nat, p: nat -> bool, q: nat -> bool)
    requires Those(s, ids, p) && id !in ids && forall x :: x in ids ==> p(x) == q(x)
    ensures var t := if q(id) then s + {id} else s;
      Those(t, ids + [id], q) && |t| == |s| + if q(id) then 1 else 0
  {
    assert id !in s;
    assert forall x :: x in ids + [id] <==> x in ids || x == id;
  }

  function Due(log: seq<Event>, notified: map<nat, int>, now: int, c: Config): nat -> bool {
    (id: nat) => Considered(log, notified, id, now, c)
  }

  function StillDue(log: seq<Event>, before: map<nat, int>, notified: map<nat, int>, now: int, c: Config): nat -> bool {
    (id: nat) => Considered(log, before, id, now, c) && id !in notified
  }

  /** The considered events among some ids, and those of them that stay pending; counted once each. */
  ghost predicate Accounts(seen: set<nat>, left: set<nat>, ids: seq<nat>, log: seq<Event>, before: map<nat, int>,
                           notified: map<nat, int>, now: int, r: Result, c: Config)
  {
    && Those(seen, ids, Due(log, before, now, c)) && r.attempted == |seen|
    && Those(left, ids, StillDue(log, before, notified, now, c)) && r.failed == |left|
  }

  lemma AccountsGrow(seen: set<nat>, left: set<nat>, ids: seq<nat>, id: nat, log: seq<Event>, before: map<nat, int>,
                     notified: map<nat, int>, after: map<nat, int>, now: int, r: Result, next: Result, c: Config)
    requires Accounts(seen, left, ids, log, before, notified, now, r, c) && id !in ids
    requires after == notified || after == notified[id := now]
    requires next.attempted == r.attempted + if Due(log, before, now, c)(id) then 1 else 0
    requires next.failed == r.failed + if StillDue(log, before, after, now, c)(id) then 1 else 0
    ensures Accounts(if Due(log, before, now, c)(id) then seen + {id} else seen,
                     if StillDue(log, before, after, now, c)(id) then left + {id} else left,
                     ids + [id], log, before, after, now, next, c)
  {
    hide Considered, Those;
    OneMoreOfThose(seen, ids, id, Due(log, before, now, c), Due(log, before, now, c));
    OneMoreOfThose(left, ids, id, StillDue(log, before, notified, now, c), StillDue(log, before, after, now, c));
  }

  class Notifier {
    const c: Config
    var log: seq<Event>
    var notified: map<nat, int>
    ghost var trace: seq<Mark>
    ghost var clock: int

    constructor (c: Config)
      requires c.Valid()
      ensures Valid() && this.c == c && trace == []
    {
      this.c, log, notified, trace, clock := c, [], map[], [], 0;
    }

    ghost predicate Valid()
      reads this
    {
      c.Valid() && Legal(trace, c) && Replay(trace) == Mailbox(log, notified, clock)
    }

    ghost method Commit(s: Mark)
      requires Legal(trace, c) && Justified(Replay(trace), s, c)
      modifies this`trace, this`clock
      ensures trace == old(trace) + [s] && Legal(trace, c) && Replay(trace) == Apply(Replay(old(trace)), s)
      ensures clock == Replay(trace).clock
    {
      OneMore(trace, s, c);
      trace := trace + [s];
      clock := Replay(trace).clock;
    }

    method RecordEvent(e: Event)
      requires Valid() && (log == [] || log[|log| - 1].occurredAt <= e.occurredAt)
      modifies this
      ensures Valid() && trace == old(trace) + [Recorded(e)] && log == old(log) + [e] && clock == old(clock)
    {
      log := log + [e];
      Commit(Recorded(e));
    }

    /** The transport may refuse; then the event stays pending for a later cycle. */
    method Deliver(id: nat, now: int) returns (sent: bool)
      requires Valid() && Justified(Replay(trace), Emailed(id, now), c)
      modifies this
      ensures Valid() && log == old(log)
      ensures trace == if sent then old(trace) + [Emailed(id, now)] else old(trace)
      ensures notified == if sent then old(notified)[id := now] else old(notified)
    {
      sent := *;
      if sent {
        notified := notified[id := now];
        Commit(Emailed(id, now));
      }
    }

    method Merge(id: nat, now: int)
      requires Valid() && Justified(Replay(trace), Merged(id, now), c)
      modifies this
      ensures Valid() && log == old(log) && trace == old(trace) + [Merged(id, now)]
      ensures notified == old(notified)[id := now]
    {
      notified := notified[id := now];
      Commit(Merged(id, now));
    }

    /** What was pending when the cycle started, oldest first. */
    method LoadPending(since: int) returns (pending: seq<nat>)
      ensures forall k :: k in pending <==> Pending(log, notified, k, since, c)
      ensures forall i, j :: 0 <= i < j < |pending| ==> pending[i] < pending[j]
    {
      pending := [];
      for id := 0 to |log|
        invariant forall k: nat :: k in pending <==> k < id && Pending(log, notified, k, since, c)
        invariant forall i, j :: 0 <= i < j < |pending| ==> pending[i] < pending[j]
      {
        if Pending(log, notified, id, since, c) {
          assert forall i :: 0 <= i < |pending| ==> pending[i] in pending;
          pending := pending + [id];
        }
      }
    }

    /** One pending event: too old for its category, a repeat, or an e-mail. */
    method Examine(id: nat, now: int, r: Result) returns (next: Result)
      requires Valid() && now >= clock && Pending(log, notified, id, now - LongestWindow(c), c)
      requires r.attempted == r.sent + r.deduplicated + r.failed
      modifies this
      ensures Valid() && log == old(log) && now >= clock
      ensures next.attempted == next.sent + next.deduplicated + next.failed
      ensures old(trace) <= trace && |trace| - |old(trace)| == next.sent + next.deduplicated - r.sent - r.deduplicated
      ensures notified == old(notified) || notified == old(notified)[id := now]
      ensures next.attempted == r.attempted + if Considered(log, old(notified), id, now, c) then 1 else 0
      ensures next.failed == r.failed + if Considered(log, old(notified), id, now, c) && id !in notified then 1 else 0
    {
      next := r;
      var since := now - Window(log[id].category, c);
      if log[id].occurredAt < since {
        return;
      }
      next := next.(attempted := r.attempted + 1);
      if NotifiedRecently(log, notified, id, since) {
        Merge(id, now);
        return next.(deduplicated := r.deduplicated + 1);
      }
      var sent := Deliver(id, now);
      next := if sent then next.(sent := r.sent + 1) else next.(failed := r.failed + 1);
    }

    /** The rest of a cycle still has to be dealt with, and none of it is marked. */
    ghost predicate Ahead(pending: seq<nat>, i: nat, now: int)
      reads this
    {
      && (forall j, k :: 0 <= j < k < |pending| ==> pending[j] < pending[k])
      && (forall k :: i <= k < |pending| ==> Pending(log, notified, pending[k], now - LongestWindow(c), c))
    }

    /** One event of the batch and what it adds to the accounts. */
    method ExamineNext(pending: seq<nat>, i: nat, now: int, r: Result, ghost before: map<nat, int>,
                       ghost seen: set<nat>, ghost left: set<nat>)
      returns (next: Result, ghost seenNext: set<nat>, ghost leftNext: set<nat>)
      requires Valid() && now >= clock && i < |pending| && Ahead(pending, i, now)
      requires Accounts(seen, left, pending[..i], log, before, notified, now, r, c) && pending[i] !in before
      requires r.attempted == r.sent + r.deduplicated + r.failed
      modifies this
      ensures Valid() && log == old(log) && now >= clock && Ahead(pending, i + 1, now)
      ensures next.attempted == next.sent + next.deduplicated + next.failed
      ensures old(trace) <= trace && |trace| - |old(trace)| == next.sent + next.deduplicated - r.sent - r.deduplicated
      ensures notified == old(notified) || notified == old(notified)[pending[i] := now]
      ensures Accounts(seenNext, leftNext, pending[..i + 1], log, before, notified, now, next, c)
    {
      var id := pending[i];
      assert pending[..i + 1] == pending[..i] + [id];
      next := Examine(id, now, r);
      AccountsGrow(seen, left, pending[..i], id, log, before, old(notified), notified, now, r, next, c);
      seenNext := if Due(log, before, now, c)(id) then seen + {id} else seen;
      leftNext := if StillDue(log, before, notified, now, c)(id) then left + {id} else left;
    }

    /**
     * One cycle, whatever fails in it: every considered event is counted once, those that could not
     * be sent are exactly the considered ones that are still pending, and the others are marked.
     */
    method RunCycle(now: int, maintenance: bool) returns (r: Result)
      requires Valid() && now >= clock
      modifies this
      ensures Valid() && old(trace) <= trace && log == old(log) && now >= clock
      ensures maintenance ==> r == Result(0, 0, 0, 0) && trace == old(trace)
      ensures r.attempted == r.sent + r.deduplicated + r.failed
      ensures |trace| == |old(trace)| + r.sent + r.deduplicated
      ensures !maintenance ==>
        && r.attempted == |set id: nat | id < |log| && Considered(log, old(notified), id, now, c)|
        && r.failed == |set id: nat | id < |log| && Considered(log, old(notified), id, now, c) && id !in notified|
    {
      r := Result(0, 0, 0, 0);
      if maintenance {
        return;
      }
      ghost var before, seen: set<nat>, left: set<nat> := notified, {}, {};
      var pending := LoadPending(now - LongestWindow(c));
      for i := 0 to |pending|
        invariant Valid() && old(trace) <= trace && log == old(log) && now >= clock && Ahead(pending, i, now)
        invariant forall k :: i <= k < |pending| ==> pending[k] !in before
        invariant r.attempted == r.sent + r.deduplicated + r.failed
        invariant |trace| == |old(trace)| + r.sent + r.deduplicated
        invariant Accounts(seen, left, pending[..i], log, before, notified, now, r, c)
      {
        r, seen, left := ExamineNext(pending, i, now, r, before, seen, left);
      }
      assert pending[..|pending|] == pending;
      assert seen == set id: nat | id < |log| && Considered(log, before, id, now, c);
      assert left == set id: nat | id < |log| && Considered(log, before, id, now, c) && id !in notified;
    }

    /** Cycles as time goes on, with or without maintenance, and new events in any order. */
    method AnyHistory(times: seq<int>)
      requires Valid() && (forall i :: 0 <= i < |times| ==> times[i] >= clock)
      requires forall i, j :: 0 <= i < j < |times| ==> times[i] <= times[j]
      modifies this
      ensures Valid() && old(trace) <= trace && old(log) <= log
    {
      for i := 0 to |times|
        invariant Valid() && old(trace) <= trace && old(log) <= log
        invariant forall k :: i <= k < |times| ==> times[k] >= clock
      {
        var cycle: bool, maintenance: bool, e: Event := *, *, *;
        if cycle {
          var result := RunCycle(times[i], maintenance);
        } else if log == [] || log[|log| - 1].occurredAt <= e.occurredAt {
          RecordEvent(e);
        }
      }
    }
  }
}
