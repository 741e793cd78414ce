/**
 * The retention job never loses information about a day, over every interleaving of inserts
 * and runs, exactly when raw retention does not outlast hourly retention.
 */
module Compaction {
  import opened Prelude
  import opened Sequences
  import opened Aggregates
  import opened Retention

  datatype Op = Record(s: Sample) | Retain(now: nat)

  /** The database next to the history that was never pruned and the last two cutoffs. */
  datatype World = World(layers: Layers, log: seq<Sample>, rawCut: nat, hourlyCut: nat)

  const START := World(Layers([], map[], map[]), [], 0, 0)

  datatype Settings = Settings(rawDays: nat, hourlyDays: nat)

  /**
   * New samples are not older than what was already pruned; the clock can reach back over the
   * retention periods. Nothing is assumed about the clock moving forward between runs.
   */
  predicate Allowed(w: World, op: Op, c: Settings) {
    match op
    case Record(s) => w.rawCut <= s.at
    case Retain(now) => c.rawDays * DAY <= now && c.hourlyDays * DAY <= now
  }

  ghost function Step(w: World, op: Op, c: Settings): World {
    if !Allowed(w, op, c) then w else
    match op
    case Record(s) => w.(layers := w.layers.(raw := w.layers.raw + [s]), log := w.log + [s])
    case Retain(now) =>
      var rawEnd, hourlyEnd := RawCutoff(now, c.rawDays), HourlyCutoff(now, c.hourlyDays);
      World(Retained(w.layers, rawEnd, hourlyEnd), w.log, Max(w.rawCut, rawEnd), Max(w.hourlyCut, hourlyEnd))
  }

  /** A run of the system; an operation that is not allowed where it stands is skipped. */
  ghost function Run(ops: seq<Op>, c: Settings): World {
    if ops == [] then START else Step(Run(ops[..|ops| - 1], c), ops[|ops| - 1], c)
  }

  function OfHour(key: Key): Sample -> bool {
    (s: Sample) => HourKey(s) == key
  }

  function OfDay(day: Key): Sample -> bool {
    (s: Sample) => DayKey(s) == day
  }

  function OfDayBefore(day: Key, end: nat): Sample -> bool {
    (s: Sample) => DayKey(s) == day && s.at < end
  }

  /** Everything the three layers together still say about one day of one disk. */
  ghost function Combined(t: Layers, day: Key): Agg {
    Merge(Merge(Total(t.raw, OfDay(day)), HoursMerged(t.hourly, day, HOURS_PER_DAY)),
          if day in t.daily then AggOf(t.daily[day]) else NOTHING)
  }

  /** The surviving layers agree with the never-pruned log about a day. */
  ghost predicate Lossless(w: World, day: Key) {
    Combined(w.layers, day) == Total(w.log, OfDay(day))
  }

  // ------------------------------------------------------------- the shape of every state

  /** Hourly rows of the hours from `lo` up to `hi`, each over the whole history. */
  ghost function HoursBetween(log: seq<Sample>, lo: nat, hi: nat): Table {
    map key | key in (set s | s in log && lo <= HourBucket(s.at) < hi :: HourKey(s)) :: RowOf(Total(log, OfHour(key)))
  }

  ghost function DaysBefore(log: seq<Sample>, end: nat): Table {
    map key | key in (set s | s in log && DayBucket(s.at) < end :: DayKey(s)) :: RowOf(Total(log, OfDay(key)))
  }

  ghost function Canonical(log: seq<Sample>, hourlyCut: nat, rawCut: nat): Layers {
    Layers(Filter(log, NotBefore(rawCut)), HoursBetween(log, hourlyCut, rawCut), DaysBefore(log, hourlyCut))
  }

  ghost predicate Tiered(w: World) {
    && w.hourlyCut % DAY == 0 && w.rawCut % HOUR == 0 && w.hourlyCut <= w.rawCut
    && w.layers == Canonical(w.log, w.hourlyCut, w.rawCut)
  }

  lemma LaterSampleLeavesHours(log: seq<Sample>, s: Sample, lo: nat, hi: nat)
    requires hi <= HourBucket(s.at)
    ensures HoursBetween(log + [s], lo, hi) == HoursBetween(log, lo, hi)
  {
    var earlier, later := HoursBetween(log, lo, hi), HoursBetween(log + [s], lo, hi);
    forall key ensures key in later <==> key in earlier {
      assert forall x :: x in log + [s] <==> x in log || x == s;
    }
    forall key | key in earlier ensures later[key] == earlier[key] {
      TotalAppend(log, s, OfHour(key));
    }
  }

  lemma LaterSampleLeavesDays(log: seq<Sample>, s: Sample, end: nat)
    requires end <= DayBucket(s.at)
    ensures DaysBefore(log + [s], end) == DaysBefore(log, end)
  {
    var earlier, later := DaysBefore(log, end), DaysBefore(log + [s], end);
    forall key ensures key in later <==> key in earlier {
      assert forall x :: x in log + [s] <==> x in log || x == s;
    }
    forall key | key in earlier ensures later[key] == earlier[key] {
      TotalAppend(log, s, OfDay(key));
    }
  }

  lemma RecordKeepsTiers(w: World, s: Sample)
    requires Tiered(w) && w.rawCut <= s.at
    ensures Tiered(w.(layers := w.layers.(raw := w.layers.raw + [s]), log := w.log + [s]))
  {
    assert (w.log + [s])[..|w.log|] == w.log;
    HourBelowBoundary(s.at, w.rawCut);
    DayBelowBoundary(s.at, w.hourlyCut);
    LaterSampleLeavesHours(w.log, s, w.hourlyCut, w.rawCut);
    LaterSampleLeavesDays(w.log, s, w.hourlyCut);
  }

  /** Hourly roll-up of the raw layer extends the hourly layer up to the new cutoff. */
  lemma HourlyRollUp(log: seq<Sample>, lo: nat, cut: nat, end: nat)
    requires cut % HOUR == 0 && end % HOUR == 0 && lo <= cut
    ensures HoursBetween(log, lo, cut) + HourlyRows(Filter(log, NotBefore(cut)), end) ==
            HoursBetween(log, lo, Max(cut, end))
  {
    var raw := Filter(log, NotBefore(cut));
    forall s | s in log ensures s.at < end <==> HourBucket(s.at) < end
                        ensures s.at < cut <==> HourBucket(s.at) < cut
    {
      HourBelowBoundary(s.at, end);
      HourBelowBoundary(s.at, cut);
    }
    forall key | key in HourKeys(raw, end)
      ensures HourTotal(raw, key, end) == Total(log, OfHour(key))
    {
      var p := (s: Sample) => InHour(s, key, end);
      TotalOfSelection(log, NotBefore(cut), p);
      TotalSame(log, Both(NotBefore(cut), p), OfHour(key));
    }
  }

  /** Extending a day by its n-th hour adds exactly the samples keyed by that hour. */
  lemma DayGrowsByAnHour(log: seq<Sample>, day: Key, hour: Key, n: nat, hi: nat)
    requires day.bucket % DAY == 0 && hi % HOUR == 0 && 0 < n <= HOURS_PER_DAY
    requires hour == day.(bucket := day.bucket + (n - 1) * HOUR)
    ensures Total(log, OfDayBefore(day, Min(hi, day.bucket + n * HOUR))) ==
            if hour.bucket < hi
            then Merge(Total(log, OfDayBefore(day, Min(hi, day.bucket + (n - 1) * HOUR))), Total(log, OfHour(hour)))
            else Total(log, OfDayBefore(day, Min(hi, day.bucket + (n - 1) * HOUR)))
  {
    var p := OfDayBefore(day, Min(hi, day.bucket + n * HOUR));
    var q := OfDayBefore(day, Min(hi, day.bucket + (n - 1) * HOUR));
    SamplesOfAnHour(log, day, hour, n, hi);
    if hour.bucket < hi {
      TotalSplit(log, p, q);
      TotalSame(log, Both(p, q), q);
      TotalSame(log, ButNot(p, q), OfHour(hour));
    } else {
      TotalSame(log, p, q);
    }
  }

  /** Merging the stored hours of a day gives the aggregate of the day's samples. */
  lemma {:induction false} HoursAddUpToTheDay(log: seq<Sample>, lo: nat, hi: nat, day: Key, n: nat)
    requires day.bucket % DAY == 0 && lo <= day.bucket && hi % HOUR == 0 && n <= HOURS_PER_DAY
    ensures HoursMerged(HoursBetween(log, lo, hi), day, n) ==
            Total(log, OfDayBefore(day, Min(hi, day.bucket + n * HOUR)))
  {
    if n == 0 {
      TotalOfNone(log, OfDayBefore(day, Min(hi, day.bucket)));
    } else {
      HoursAddUpToTheDay(log, lo, hi, day, n - 1);
      var hour := day.(bucket := day.bucket + (n - 1) * HOUR);
      DayGrowsByAnHour(log, day, hour, n, hi);
      HourRow(log, lo, hi, hour);
      MergeNothing(HoursMerged(HoursBetween(log, lo, hi), day, n - 1), NOTHING);
    }
  }

  /** A stored hour gives the aggregate of its samples; a missing one had none in range. */
  lemma HourRow(log: seq<Sample>, lo: nat, hi: nat, hour: Key)
    ensures hour in HoursBetween(log, lo, hi) ==>
              hour.bucket < hi && AggOf(HoursBetween(log, lo, hi)[hour]) == Total(log, OfHour(hour))
    ensures hour !in HoursBetween(log, lo, hi) && lo <= hour.bucket < hi ==> Total(log, OfHour(hour)) == NOTHING
  {
    if hour in HoursBetween(log, lo, hi) {
      RowKeepsAggregate(Total(log, OfHour(hour)));
    } else if lo <= hour.bucket < hi {
      TotalOfNone(log, OfHour(hour));
    }
  }

  /** The samples that the n-th hour adds to a day are exactly those keyed by that hour. */
  lemma SamplesOfAnHour(log: seq<Sample>, day: Key, hour: Key, n: nat, hi: nat)
    requires day.bucket % DAY == 0 && 0 < n <= HOURS_PER_DAY && hi % HOUR == 0
    requires hour == day.(bucket := day.bucket + (n - 1) * HOUR)
    ensures forall s :: s in log ==>
      (HourKey(s) == hour <==>
        DayKey(s) == day && day.bucket + (n - 1) * HOUR <= s.at < day.bucket + n * HOUR)
    ensures hour.bucket < hi ==> hour.bucket + HOUR <= hi
    ensures forall s :: s in log && HourKey(s) == hour ==> HourBucket(s.at) == hour.bucket
  {
    DayBoundaryIsHourBoundary(day.bucket);
    assert hour.bucket % HOUR == 0;
    HourBelowBoundary(hour.bucket, hi);
    forall s | s in log
      ensures HourKey(s) == hour <==> DayKey(s) == day && hour.bucket <= s.at < hour.bucket + HOUR
    {
      HourBelowBoundary(s.at, hour.bucket);
      HourBelowBoundary(s.at, hour.bucket + HOUR);
      DayOfHourKey(s);
      NthHour(day, n, HourBucket(s.at));
    }
  }

  lemma AWholeDay(log: seq<Sample>, lo: nat, hi: nat, day: Key)
    requires day.bucket % DAY == 0 && lo <= day.bucket && hi % HOUR == 0
    requires day.bucket + DAY <= hi
    ensures HoursMerged(HoursBetween(log, lo, hi), day, HOURS_PER_DAY) == Total(log, OfDay(day))
  {
    HoursAddUpToTheDay(log, lo, hi, day, HOURS_PER_DAY);
    TotalSame(log, OfDayBefore(day, day.bucket + DAY), OfDay(day));
  }

  lemma OlderHours(log: seq<Sample>, lo: nat, hi: nat, end: nat)
    requires end <= hi
    ensures Older(HoursBetween(log, lo, hi), end) == HoursBetween(log, lo, end)
    ensures NewerRows(HoursBetween(log, lo, hi), end) == HoursBetween(log, Max(lo, end), hi)
  {
  }

  /** The days that hourly rows between two day boundaries cover are the days of those samples. */
  lemma DaysOfHours(log: seq<Sample>, lo: nat, end: nat)
    requires lo % DAY == 0 && end % DAY == 0
    ensures DaysOf(HoursBetween(log, lo, end)) ==
            set s | s in log && lo <= DayBucket(s.at) < end :: DayKey(s)
  {
    var hours := HoursBetween(log, lo, end);
    forall s | s in log
      ensures lo <= HourBucket(s.at) < end <==> lo <= DayBucket(s.at) < end
      ensures DayOf(HourKey(s)) == DayKey(s)
    {
      DayOfHourKey(s);
      DayBelowBoundary(HourBucket(s.at), lo);
      DayBelowBoundary(HourBucket(s.at), end);
    }
    var days := set s | s in log && lo <= DayBucket(s.at) < end :: DayKey(s);
    forall day ensures day in DaysOf(hours) <==> day in days {
      if day in DaysOf(hours) {
        var hour :| hour in hours && DayOf(hour) == day;
        var s :| s in log && lo <= HourBucket(s.at) < end && HourKey(s) == hour;
        assert DayKey(s) == day;
      }
      if day in days {
        var s :| s in log && lo <= DayBucket(s.at) < end && DayKey(s) == day;
        assert HourKey(s) in hours;
      }
    }
  }

  ghost function DaysBetween(log: seq<Sample>, lo: nat, end: nat): Table {
    map key | key in (set s | s in log && lo <= DayBucket(s.at) < end :: DayKey(s)) :: RowOf(Total(log, OfDay(key)))
  }

  /** The daily rows of whole days of hourly rows are the days of the history. */
  lemma DailyRowsAreDays(log: seq<Sample>, lo: nat, hi: nat, end: nat)
    requires lo % DAY == 0 && end % DAY == 0 && end <= hi
    ensures DailyRows(HoursBetween(log, lo, hi), end) == DaysBetween(log, lo, end)
  {
    hide HoursMerged, Total, RowOf;
    OlderHours(log, lo, hi, end);
    DaysOfHours(log, lo, end);
    DayBoundaryIsHourBoundary(end);
    var due := HoursBetween(log, lo, end);
    forall day | day in DaysOf(due)
      ensures HoursMerged(due, day, HOURS_PER_DAY) == Total(log, OfDay(day))
    {
      DayBelowBoundary(day.bucket, end);
      AWholeDay(log, lo, end, day);
    }
  }

  lemma DaysJoin(log: seq<Sample>, cut: nat, end: nat)
    ensures DaysBefore(log, cut) + DaysBetween(log, cut, end) == DaysBefore(log, Max(cut, end))
  {
    hide Total, RowOf;
  }

  /** Daily roll-up of the hourly layer extends the daily layer up to the new cutoff. */
  lemma DailyRollUp(log: seq<Sample>, cut: nat, hi: nat, end: nat)
    requires cut % DAY == 0 && end % DAY == 0 && end <= hi
    ensures DaysBefore(log, cut) + DailyRows(HoursBetween(log, cut, hi), end) == DaysBefore(log, Max(cut, end))
  {
    DailyRowsAreDays(log, cut, hi, end);
    DaysJoin(log, cut, end);
  }

  lemma RetainKeepsTiers(w: World, now: nat, c: Settings)
    requires Tiered(w) && Allowed(w, Retain(now), c) && c.rawDays <= c.hourlyDays
    ensures Tiered(Step(w, Retain(now), c))
  {
    var rawEnd, hourlyEnd := RawCutoff(now, c.rawDays), HourlyCutoff(now, c.hourlyDays);
    DayBoundaryIsHourBoundary(hourlyEnd);
    HourBelowBoundary(now - c.rawDays * DAY, hourlyEnd);
    assert hourlyEnd <= rawEnd;
    var hi := Max(w.rawCut, rawEnd);
    HourlyRollUp(w.log, w.hourlyCut, w.rawCut, rawEnd);
    DailyRollUp(w.log, w.hourlyCut, hi, hourlyEnd);
    OlderHours(w.log, w.hourlyCut, hi, hourlyEnd);
    SelectTwice(w.log, NotBefore(w.rawCut), NotBefore(rawEnd));
    SelectSame(w.log, Both(NotBefore(w.rawCut), NotBefore(rawEnd)), NotBefore(hi));
  }

  lemma {:induction false} EveryRunIsTiered(ops: seq<Op>, c: Settings)
    requires c.rawDays <= c.hourlyDays
    ensures Tiered(Run(ops, c))
  {
    if ops == [] {
      assert Canonical([], 0, 0) == START.layers;
    } else {
      var front, op := ops[..|ops| - 1], ops[|ops| - 1];
      EveryRunIsTiered(front, c);
      var w := Run(front, c);
      if Allowed(w, op, c) {
        match op
        case Record(s) => RecordKeepsTiers(w, s);
        case Retain(now) => RetainKeepsTiers(w, now, c);
      }
    }
  }

  lemma {:induction false} HoursOfAnEarlierDay(log: seq<Sample>, lo: nat, hi: nat, day: Key, n: nat)
    requires day.bucket + DAY <= lo && n <= HOURS_PER_DAY
    ensures HoursMerged(HoursBetween(log, lo, hi), day, n) == NOTHING
  {
    if n == 0 {
    } else {
      HoursOfAnEarlierDay(log, lo, hi, day, n - 1);
    }
  }

  lemma MergeNothing(a: Agg, none: Agg)
    requires a.media >= 0 && a.other >= 0 && a.predictive >= 0
    requires none == NOTHING
    ensures Merge(a, none) == a && Merge(none, a) == a
  {
  }

  /** A day behind the hourly cutoff lives in the daily layer alone. */
  lemma EarlierDay(w: World, day: Key)
    requires Tiered(w) && day.bucket % DAY == 0 && day.bucket < w.hourlyCut
    ensures Total(w.layers.raw, OfDay(day)) == NOTHING
    ensures HoursMerged(w.layers.hourly, day, HOURS_PER_DAY) == NOTHING
    ensures day in w.layers.daily ==> AggOf(w.layers.daily[day]) == Total(w.log, OfDay(day))
    ensures day !in w.layers.daily ==> Total(w.log, OfDay(day)) == NOTHING
  {
    DayBelowBoundary(day.bucket, w.hourlyCut);
    TotalOfSelection(w.log, NotBefore(w.rawCut), OfDay(day));
    TotalOfNone(w.log, Both(NotBefore(w.rawCut), OfDay(day)));
    HoursOfAnEarlierDay(w.log, w.hourlyCut, w.rawCut, day, HOURS_PER_DAY);
    if day in w.layers.daily {
      RowKeepsAggregate(Total(w.log, OfDay(day)));
    } else {
      TotalOfNone(w.log, OfDay(day));
    }
  }

  /** The samples of a day fall on either side of the raw cutoff. */
  lemma DaySplitsAtRawCut(log: seq<Sample>, day: Key, cut: nat)
    ensures Total(log, OfDay(day)) ==
            Merge(Total(Filter(log, NotBefore(cut)), OfDay(day)),
                  Total(log, OfDayBefore(day, Min(cut, day.bucket + DAY))))
  {
    var kept := NotBefore(cut);
    TotalOfSelection(log, kept, OfDay(day));
    TotalSplit(log, OfDay(day), kept);
    TotalSame(log, Both(OfDay(day), kept), Both(kept, OfDay(day)));
    forall s | s in log
      ensures ButNot(OfDay(day), kept)(s) == OfDayBefore(day, Min(cut, day.bucket + DAY))(s)
    {
      assert DayKey(s) == day ==> s.at < day.bucket + DAY;
    }
    TotalSame(log, ButNot(OfDay(day), kept), OfDayBefore(day, Min(cut, day.bucket + DAY)));
  }

  /** A day from the hourly cutoff on is split between the hourly and the raw layer. */
  lemma LaterDay(w: World, day: Key)
    requires Tiered(w) && day.bucket % DAY == 0 && w.hourlyCut <= day.bucket
    ensures day !in w.layers.daily
    ensures Merge(Total(w.layers.raw, OfDay(day)), HoursMerged(w.layers.hourly, day, HOURS_PER_DAY)) ==
            Total(w.log, OfDay(day))
  {
    HoursAddUpToTheDay(w.log, w.hourlyCut, w.rawCut, day, HOURS_PER_DAY);
    DaySplitsAtRawCut(w.log, day, w.rawCut);
  }

  /** Three contributions of which only one half is not empty. */
  lemma MergeOfLayers(raw: Agg, hours: Agg, day: Agg, whole: Agg)
    requires whole.media >= 0 && whole.other >= 0 && whole.predictive >= 0
    requires (raw == NOTHING && hours == NOTHING && day == whole) || (Merge(raw, hours) == whole && day == NOTHING)
    ensures Merge(Merge(raw, hours), day) == whole
  {
    if day == NOTHING && Merge(raw, hours) == whole {
      MergeNothing(whole, day);
    } else {
      MergeNothing(raw, hours);
      MergeNothing(whole, raw);
    }
  }

  /** In a tiered state nothing about any day was lost, and nothing is counted twice. */
  lemma TiersAreLossless(w: World, day: Key)
    requires Tiered(w) && day.bucket % DAY == 0
    ensures Lossless(w, day)
  {
    if day.bucket < w.hourlyCut {
      EarlierDay(w, day);
    } else {
      LaterDay(w, day);
    }
    MergeOfLayers(Total(w.layers.raw, OfDay(day)), HoursMerged(w.layers.hourly, day, HOURS_PER_DAY),
                  if day in w.layers.daily then AggOf(w.layers.daily[day]) else NOTHING, Total(w.log, OfDay(day)));
  }

  // ------------------------------------------------------------- the store goes through these states

  lemma RetainedHoursAreAligned(t: Layers, rawEnd: nat, hourlyEnd: nat)
    requires HourAligned(t.hourly)
    ensures HourAligned(Retained(t, rawEnd, hourlyEnd).hourly)
  {
    forall key | key in HourlyRows(t.raw, rawEnd) ensures key.bucket % HOUR == 0 {
      var s :| s in t.raw && s.at < rawEnd && HourKey(s) == key;
    }
  }

  lemma {:induction false} HoursAreAligned(ops: seq<Op>, c: Settings)
    ensures HourAligned(Run(ops, c).layers.hourly)
  {
    if ops == [] {
    } else {
      var front, op := ops[..|ops| - 1], ops[|ops| - 1];
      HoursAreAligned(front, c);
      if op.Retain? && Allowed(Run(front, c), op, c) {
        RetainedHoursAreAligned(Run(front, c).layers, RawCutoff(op.now, c.rawDays), HourlyCutoff(op.now, c.hourlyDays));
      }
    }
  }

  method Perform(store: MetricsStore, ghost w: World, op: Op, c: Settings)
    requires store.State() == w.layers && HourAligned(w.layers.hourly) && Allowed(w, op, c)
    modifies store
    ensures store.State() == Step(w, op, c).layers
  {
    match op
    case Record(s) => store.RecordSample(s);
    case Retain(now) => store.RunRetention(now, c.rawDays, c.hourlyDays);
  }

  /** The store, driven by any sequence of inserts and nightly runs, holds the layers of that run. */
  method Drive(ops: seq<Op>, c: Settings) returns (store: MetricsStore)
    requires forall i :: 0 <= i < |ops| ==> Allowed(Run(ops[..i], c), ops[i], c)
    ensures store.State() == Run(ops, c).layers
  {
    store := new MetricsStore();
    for i := 0 to |ops|
      invariant store.State() == Run(ops[..i], c).layers
      invariant fresh(store)
    {
      HoursAreAligned(ops[..i], c);
      Perform(store, Run(ops[..i], c), ops[i], c);
      RunStep(ops, i, c);
    }
    assert ops[..|ops|] == ops;
  }

  // ------------------------------------------------------------- main results

  /** Every run keeps, for every day and disk, the aggregate of the full history. */
  lemma CompactionRefinesTheLog(ops: seq<Op>, c: Settings, day: Key)
    requires c.rawDays <= c.hourlyDays && day.bucket % DAY == 0
    ensures Lossless(Run(ops, c), day)
  {
    EveryRunIsTiered(ops, c);
    TiersAreLossless(Run(ops, c), day);
  }

  /** Running the job a second time at the same instant changes nothing. */
  lemma RetentionIsIdempotent(w: World, now: nat, c: Settings)
    requires Tiered(w) && Allowed(w, Retain(now), c) && c.rawDays <= c.hourlyDays
    ensures Step(Step(w, Retain(now), c), Retain(now), c) == Step(w, Retain(now), c)
  {
    RetainKeepsTiers(w, now, c);
    RetainKeepsTiers(Step(w, Retain(now), c), now, c);
  }

  /** How often and when the job ran in between does not matter: the layers are determined. */
  lemma SchedulesAgree(left: seq<Op>, right: seq<Op>, c: Settings)
    requires c.rawDays <= c.hourlyDays
    requires var l, r := Run(left, c), Run(right, c);
      l.log == r.log && l.rawCut == r.rawCut && l.hourlyCut == r.hourlyCut
    ensures Run(left, c).layers == Run(right, c).layers
  {
    EveryRunIsTiered(left, c);
    EveryRunIsTiered(right, c);
  }

  /** Two samples of one disk, then two runs a night apart. */
  function LosingRun(s0: Sample, s1: Sample, c: Settings): seq<Op> {
    [Record(s0), Record(s1), Retain(c.rawDays * DAY + 3 * HOUR), Retain(c.rawDays * DAY + DAY)]
  }

  lemma OneDueSample(raw: seq<Sample>, s: Sample, rest: seq<Sample>, end: nat)
    requires raw == [s] + rest && |rest| <= 1 && s.at < end && forall x :: x in rest ==> end <= x.at
    ensures Filter(raw, NotBefore(end)) == rest
    ensures HourTotal(raw, HourKey(s), end) == OfSample(s)
    ensures HourKeys(raw, end) == {HourKey(s)}
  {
    var p := (x: Sample) => InHour(x, HourKey(s), end);
    assert [s][..0] == [];
    MergeNothing(OfSample(s), NOTHING);
    assert Total([s], p) == Merge(Total([], p), OfSample(s)) && Total([], p) == NOTHING;
    if rest == [] {
      assert raw == [s];
    } else {
      assert raw == [s] + [rest[0]] && raw[..1] == [s];
      TotalAppend([s], rest[0], p);
    }
    assert s in raw;
  }

  lemma OneDueHour(hour: Key, day: Key, s: Sample)
    requires hour == HourKey(s) && day == DayKey(s)
    ensures HoursMerged(map[hour := RowOf(OfSample(s))], day, HOURS_PER_DAY) == OfSample(s)
  {
    var row := RowOf(OfSample(s));
    DayOfHourKey(s);
    DayBelowBoundary(hour.bucket, day.bucket + DAY);
    HoursMergedOfNone(map[], day, HOURS_PER_DAY);
    HoursMergedInsert(map[], hour, row, day, HOURS_PER_DAY);
    assert map[][hour := row] == map[hour := row];
    OneSampleRow(s);
  }

  lemma OneSampleRow(s: Sample)
    ensures Merge(NOTHING, AggOf(RowOf(OfSample(s)))) == OfSample(s)
  {
    RowKeepsAggregate(OfSample(s));
    MergeNothing(OfSample(s), NOTHING);
  }

  /** One sample is due for hourly roll-up, and its hour is already due for daily roll-up. */
  lemma LosingNight(t: Layers, s: Sample, rest: seq<Sample>, rawEnd: nat, hourlyEnd: nat)
    requires t.raw == [s] + rest && |rest| <= 1 && t.hourly == map[]
    requires s.at < rawEnd && (forall x :: x in rest ==> rawEnd <= x.at) && HourBucket(s.at) < hourlyEnd
    ensures Retained(t, rawEnd, hourlyEnd) == Layers(rest, map[], t.daily[DayKey(s) := RowOf(OfSample(s))])
  {
    var hour, day, row := HourKey(s), DayKey(s), RowOf(OfSample(s));
    OneDueSample(t.raw, s, rest, rawEnd);
    OneDueHour(hour, day, s);
    DayOfHourKey(s);
    var hourly: Table := map[hour := row];
    assert t.hourly + HourlyRows(t.raw, rawEnd) == hourly;
    assert Older(hourly, hourlyEnd) == hourly && NewerRows(hourly, hourlyEnd) == map[];
    assert hour in hourly;
    assert DaysOf(hourly) == {day};
    assert DailyRows(hourly, hourlyEnd) == map[day := row];
  }

  lemma OneDailyRow(t: Layers, day: Key, s: Sample)
    requires t.raw == [] && t.hourly == map[] && t.daily == map[day := RowOf(OfSample(s))] && day.bucket % DAY == 0
    ensures Combined(t, day) == OfSample(s)
  {
    TotalOfNone(t.raw, OfDay(day));
    HoursMergedOfNone(t.hourly, day, HOURS_PER_DAY);
    RowKeepsAggregate(OfSample(s));
    MergeOfLayers(Total(t.raw, OfDay(day)), HoursMerged(t.hourly, day, HOURS_PER_DAY), AggOf(t.daily[day]),
                  OfSample(s));
  }

  lemma TwoSamples(s0: Sample, s1: Sample, day: Key)
    requires DayKey(s0) == day == DayKey(s1)
    ensures Total([s0] + [s1], OfDay(day)).samples == 2
  {
    assert [s0][..0] == [];
    TotalAppend([s0], s1, OfDay(day));
    assert Total([s0], OfDay(day)).samples == 1;
  }

  lemma SecondLosingNight(t: Layers, s0: Sample, s1: Sample, rawEnd: nat, hourlyEnd: nat)
    requires DayKey(s0) == DayKey(s1) && s1.at < rawEnd && HourBucket(s1.at) < hourlyEnd
    requires t == Layers([s1], map[], map[DayKey(s0) := RowOf(OfSample(s0))])
    ensures Combined(Retained(t, rawEnd, hourlyEnd), DayKey(s1)) == OfSample(s1)
  {
    assert [s1] == [s1] + [];
    LosingNight(t, s1, [], rawEnd, hourlyEnd);
    OneDailyRow(Retained(t, rawEnd, hourlyEnd), DayKey(s1), s1);
  }

  /** Two samples of one day, then two nights that each roll up one of them. */
  lemma TwoLosingNights(t: Layers, s0: Sample, s1: Sample, raw1: nat, hourly1: nat, raw2: nat, hourly2: nat)
    requires t == Layers([s0] + [s1], map[], map[]) && DayKey(s0) == DayKey(s1)
    requires s0.at < raw1 <= s1.at < raw2
    requires HourBucket(s0.at) < hourly1 && HourBucket(s1.at) < hourly2
    ensures Combined(Retained(Retained(t, raw1, hourly1), raw2, hourly2), DayKey(s1)) == OfSample(s1)
  {
    LosingNight(t, s0, [s1], raw1, hourly1);
    SecondLosingNight(Retained(t, raw1, hourly1), s0, s1, raw2, hourly2);
  }

  lemma RunStep(ops: seq<Op>, i: nat, c: Settings)
    requires i < |ops|
    ensures Run(ops[..i + 1], c) == Step(Run(ops[..i], c), ops[i], c)
  {
    assert ops[..i + 1][..i] == ops[..i];
  }

  lemma TwoInserts(ops: seq<Op>, s0: Sample, s1: Sample, c: Settings)
    requires |ops| >= 2 && ops[0] == Record(s0) && ops[1] == Record(s1)
    ensures Run(ops[..2], c) == World(Layers([s0] + [s1], map[], map[]), [s0] + [s1], 0, 0)
  {
    RunStep(ops, 0, c);
    RunStep(ops, 1, c);
    assert [] + [s0] == [s0];
  }

  lemma CutoffsOfTheLosingRun(c: Settings, first: nat, second: nat)
    requires c.rawDays > c.hourlyDays && first == c.rawDays * DAY + 3 * HOUR && second == c.rawDays * DAY + DAY
    ensures RawCutoff(first, c.rawDays) == 3 * HOUR && RawCutoff(second, c.rawDays) == DAY
    ensures HourlyCutoff(first, c.hourlyDays) >= DAY && HourlyCutoff(second, c.hourlyDays) >= DAY
  {
    DayBelowBoundary(first - c.hourlyDays * DAY, DAY);
    DayBelowBoundary(second - c.hourlyDays * DAY, DAY);
  }

  lemma TwoNightsLose(w: World, s0: Sample, s1: Sample, first: nat, second: nat, c: Settings)
    requires c.rawDays > c.hourlyDays && first == c.rawDays * DAY + 3 * HOUR && second == c.rawDays * DAY + DAY
    requires w == World(Layers([s0] + [s1], map[], map[]), [s0] + [s1], 0, 0)
    requires DayKey(s0) == DayKey(s1) && s0.at < 3 * HOUR <= s1.at < DAY
    ensures !Lossless(Step(Step(w, Retain(first), c), Retain(second), c), DayKey(s1))
  {
    CutoffsOfTheLosingRun(c, first, second);
    TwoLosingNights(w.layers, s0, s1, RawCutoff(first, c.rawDays), HourlyCutoff(first, c.hourlyDays),
                    RawCutoff(second, c.rawDays), HourlyCutoff(second, c.hourlyDays));
    TwoSamples(s0, s1, DayKey(s1));
  }

  lemma LosesOn(ops: seq<Op>, s0: Sample, s1: Sample, first: nat, second: nat, c: Settings)
    requires ops == [Record(s0), Record(s1), Retain(first), Retain(second)]
    requires c.rawDays > c.hourlyDays && first == c.rawDays * DAY + 3 * HOUR && second == c.rawDays * DAY + DAY
    requires DayKey(s0) == DayKey(s1) && s0.at < 3 * HOUR <= s1.at < DAY
    ensures !Lossless(Run(ops, c), DayKey(s1))
  {
    RunOfFour(ops, c);
    TwoInserts(ops, s0, s1, c);
    TwoNightsLose(Run(ops[..2], c), s0, s1, first, second, c);
  }

  lemma RunOfFour(ops: seq<Op>, c: Settings)
    requires |ops| == 4
    ensures Run(ops, c) == Step(Step(Run(ops[..2], c), ops[2], c), ops[3], c)
  {
    RunStep(ops, 2, c);
    RunStep(ops, 3, c);
    assert ops[..4] == ops;
  }

  /**
   * When raw samples outlive hourly rows, the second run overwrites the daily row that the
   * first one wrote, and the earlier hours are gone: for all such settings, and for every two
   * samples of the first day of which one is taken before and one after three o'clock.
   */
  lemma LongerRawRetentionLosesHours(s0: Sample, s1: Sample, c: Settings)
    requires c.rawDays > c.hourlyDays
    requires DayKey(s0) == DayKey(s1) && s0.at < 3 * HOUR <= s1.at < DAY
    ensures !Lossless(Run(LosingRun(s0, s1, c), c), DayKey(s1))
  {
    var ops := LosingRun(s0, s1, c);
    LosesOn(ops, s0, s1, ops[2].now, ops[3].now, c);
  }

  /** The settings under which the job is lossless, exactly. */
  lemma LosslessIffRawRetentionIsNotLonger(c: Settings)
    ensures (forall ops, day: Key :: day.bucket % DAY == 0 ==> Lossless(Run(ops, c), day)) <==>
            c.rawDays <= c.hourlyDays
  {
    if c.rawDays <= c.hourlyDays {
      forall ops, day: Key | day.bucket % DAY == 0 ensures Lossless(Run(ops, c), day) {
        CompactionRefinesTheLog(ops, c, day);
      }
    } else {
      var s0 := Sample(0, 0, 0, "S", None, 0, 0, 0);
      var s1 := s0.(at := 5 * HOUR);
      LongerRawRetentionLosesHours(s0, s1, c);
    }
  }
}
