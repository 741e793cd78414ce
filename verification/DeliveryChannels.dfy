/**
 * Both delivery channels on one database. E-mail marks an event as notified, Telegram keeps a row and a
 * cooldown; each run of the two together is, seen from either channel, a run of that channel alone.
 */
module DeliveryChannels {
  import opened Incidents
  import Mail = SmtpNotifier
  import Telegram = Outbox

  /** The shared event log is part of what Telegram reads; `notified` is the e-mail marker of its events. */
  datatype Database = Database(telegram: Telegram.Db, notified: map<nat, int>, mailClock: int)

  /** A commit of one of the channels; the collector's commits are among those that Telegram sees. */
  datatype Commit = ByMail(mark: Mail.Mark) | ByTelegram(commit: Telegram.Mark)

  function MailboxOf(d: Database): Mail.Mailbox {
    Mail.Mailbox(d.telegram.saved.log, d.notified, d.mailClock)
  }

  function Apply(d: Database, c: Commit, r: Telegram.Rules): Database {
    match c
    case ByMail(mark) =>
      var next := Mail.Apply(MailboxOf(d), mark);
      Database(d.telegram.(saved := d.telegram.saved.(log := next.log)), next.notified, next.clock)
    case ByTelegram(commit) => d.(telegram := Telegram.Apply(d.telegram, commit, r))
  }

  /** Each channel commits under its own conditions; only the collector records events. */
  ghost predicate Justified(d: Database, c: Commit, r: Telegram.Rules, config: Mail.Config) {
    match c
    case ByMail(mark) => !mark.Recorded? && Mail.Justified(MailboxOf(d), mark, config)
    case ByTelegram(commit) => Telegram.Justified(d.telegram, commit, r)
  }

  function Replay(run: seq<Commit>, saved: Saved, r: Telegram.Rules): Database {
    if run == [] then Database(Telegram.Empty(saved), map[], 0)
    else Apply(Replay(run[..|run| - 1], saved, r), run[|run| - 1], r)
  }

  ghost predicate Legal(run: seq<Commit>, saved: Saved, r: Telegram.Rules, config: Mail.Config) {
    if run == [] then InTimeOrder(saved.log) else
      && Legal(run[..|run| - 1], saved, r, config)
      && Justified(Replay(run[..|run| - 1], saved, r), run[|run| - 1], r, config)
  }

  // ------------------------------------------------------------- one step

  /** No commit of one channel writes the delivery state of the other, and none of either rewrites an event. */
  lemma ChannelsDoNotInterfere(d: Database, c: Commit, r: Telegram.Rules, config: Mail.Config)
    requires Justified(d, c, r, config)
    ensures c.ByMail? ==> Apply(d, c, r).telegram == d.telegram
    ensures c.ByTelegram? ==> Apply(d, c, r).notified == d.notified && Apply(d, c, r).mailClock == d.mailClock
    ensures d.telegram.saved.log <= Apply(d, c, r).telegram.saved.log
  {
  }

  // ------------------------------------------------------------- what each channel sees

  function Recordings(events: seq<Event>): seq<Mail.Mark> {
    seq(|events|, i requires 0 <= i < |events| => Mail.Recorded(events[i]))
  }

  /** The commits of a run that Telegram sees. */
  function TelegramView(run: seq<Commit>): seq<Telegram.Mark> {
    if run == [] then [] else
      TelegramView(run[..|run| - 1]) + match run[|run| - 1] case ByMail(_) => [] case ByTelegram(commit) => [commit]
  }

  /** What e-mail sees of a commit: its own marks, and the events that the collector adds. */
  function Seen(d: Database, c: Commit): seq<Mail.Mark> {
    match c
    case ByMail(mark) => [mark]
    case ByTelegram(commit) =>
      if commit.Collected? && |d.telegram.saved.log| <= |commit.saved.log|
      then Recordings(commit.saved.log[|d.telegram.saved.log|..]) else []
  }

  function MailView(run: seq<Commit>, saved: Saved, r: Telegram.Rules): seq<Mail.Mark> {
    if run == [] then Recordings(saved.log) else
      MailView(run[..|run| - 1], saved, r) + Seen(Replay(run[..|run| - 1], saved, r), run[|run| - 1])
  }

  lemma InTimeOrderPrefix(log: seq<Event>, more: seq<Event>)
    requires InTimeOrder(log + more)
    ensures InTimeOrder(log)
  {
    forall i, j | 0 <= i < j < |log| ensures log[i].occurredAt <= log[j].occurredAt {
      assert (log + more)[i] == log[i] && (log + more)[j] == log[j];
    }
  }

  lemma LastIsLatest(log: seq<Event>, last: Event)
    requires InTimeOrder(log + [last])
    ensures log == [] || log[|log| - 1].occurredAt <= last.occurredAt
  {
    var all := log + [last];
    assert log != [] ==> all[|log| - 1] == log[|log| - 1] && all[|log|] == last;
  }

  lemma EventIsRecorded(trace: seq<Mail.Mark>, log: seq<Event>, e: Event, config: Mail.Config)
    requires Mail.Legal(trace, config) && Mail.Replay(trace).log == log && InTimeOrder(log + [e])
    ensures Mail.Legal(trace + [Mail.Recorded(e)], config)
    ensures Mail.Replay(trace + [Mail.Recorded(e)]) == Mail.Replay(trace).(log := log + [e])
  {
    LastIsLatest(log, e);
    Mail.OneMore(trace, Mail.Recorded(e), config);
  }

  lemma RecordingsGrow(trace: seq<Mail.Mark>, log: seq<Event>, front: seq<Event>, last: Event)
    ensures trace + Recordings(front + [last]) == trace + Recordings(front) + [Mail.Recorded(last)]
    ensures log + (front + [last]) == log + front + [last]
  {
  }

  lemma {:induction false} EventsAreRecorded(trace: seq<Mail.Mark>, log: seq<Event>, events: seq<Event>,
                                             config: Mail.Config)
    requires Mail.Legal(trace, config) && Mail.Replay(trace).log == log && InTimeOrder(log + events)
    ensures Mail.Legal(trace + Recordings(events), config)
    ensures Mail.Replay(trace + Recordings(events)) == Mail.Replay(trace).(log := log + events)
    decreases |events|
  {
    if events == [] {
      assert trace + Recordings(events) == trace && log + events == log;
    } else {
      var front, last := events[..|events| - 1], events[|events| - 1];
      assert events == front + [last];
      RecordingsGrow(trace, log, front, last);
      InTimeOrderPrefix(log + front, [last]);
      EventsAreRecorded(trace, log, front, config);
      EventIsRecorded(trace + Recordings(front), log + front, last, config);
    }
  }

  lemma {:induction false} TelegramRunsAlone(run: seq<Commit>, saved: Saved, r: Telegram.Rules, config: Mail.Config)
    requires Legal(run, saved, r, config)
    ensures Telegram.Legal(TelegramView(run), saved, r)
    ensures Telegram.Replay(TelegramView(run), saved, r) == Replay(run, saved, r).telegram
  {
    if run == [] {
    } else {
      var front, last := run[..|run| - 1], run[|run| - 1];
      TelegramRunsAlone(front, saved, r, config);
      ChannelsDoNotInterfere(Replay(front, saved, r), last, r, config);
      if last.ByTelegram? {
        Telegram.OneMore(TelegramView(front), last.commit, saved, r);
      } else {
        assert TelegramView(run) == TelegramView(front);
      }
    }
  }

  lemma MailSees(trace: seq<Mail.Mark>, d: Database, c: Commit, r: Telegram.Rules, config: Mail.Config)
    requires Mail.Legal(trace, config) && Mail.Replay(trace) == MailboxOf(d) && Justified(d, c, r, config)
    ensures Mail.Legal(trace + Seen(d, c), config) && Mail.Replay(trace + Seen(d, c)) == MailboxOf(Apply(d, c, r))
  {
    if c.ByMail? {
      Mail.OneMore(trace, c.mark, config);
    } else if c.commit.Collected? {
      var before, after := d.telegram.saved.log, c.commit.saved.log;
      assert before + after[|before|..] == after;
      EventsAreRecorded(trace, before, after[|before|..], config);
    } else {
      assert trace + Seen(d, c) == trace;
    }
  }

  lemma {:induction false} MailRunsAlone(run: seq<Commit>, saved: Saved, r: Telegram.Rules, config: Mail.Config)
    requires Legal(run, saved, r, config)
    ensures Mail.Legal(MailView(run, saved, r), config)
    ensures Mail.Replay(MailView(run, saved, r)) == MailboxOf(Replay(run, saved, r))
  {
    if run == [] {
      assert [] + saved.log == saved.log && [] + Recordings(saved.log) == Recordings(saved.log);
      EventsAreRecorded([], [], saved.log, config);
    } else {
      var front := run[..|run| - 1];
      MailRunsAlone(front, saved, r, config);
      MailSees(MailView(front, saved, r), Replay(front, saved, r), run[|run| - 1], r, config);
    }
  }

  /**
   * Every interleaving of the two channels is a run of e-mail alone and a run of Telegram alone, and
   * ends in the states of these two: all that was shown of either channel holds on the shared database.
   */
  lemma EachChannelRunsAlone(run: seq<Commit>, saved: Saved, r: Telegram.Rules, config: Mail.Config)
    requires Legal(run, saved, r, config)
    ensures Telegram.Legal(TelegramView(run), saved, r) && Mail.Legal(MailView(run, saved, r), config)
    ensures var d := Replay(run, saved, r);
      && d.telegram == Telegram.Replay(TelegramView(run), saved, r)
      && d.notified == Mail.Replay(MailView(run, saved, r)).notified
      && d.telegram.saved.log == Mail.Replay(MailView(run, saved, r)).log
  {
    TelegramRunsAlone(run, saved, r, config);
    MailRunsAlone(run, saved, r, config);
  }
}
