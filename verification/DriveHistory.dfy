/**
 * The history reader: raw, hourly and daily rows of one slot merged into one series, finer
 * rows taking precedence.
 */
module DriveHistory {
  import opened Prelude
  import opened Sequences
  import opened Aggregates
  import opened Retention
  import opened Compaction

  datatype RawPoint = RawPoint(
    timestamp: nat, serial: string, id: nat, temperature: Option<int>, media: int, other: int, predictive: int)

  datatype AggregatePoint = AggregatePoint(
    timestamp: nat, serial: string, id: nat, tempMin: Option<int>, tempMax: Option<int>, tempAvg: Option<real>,
    media: int, other: int, predictive: int)

  datatype Rows = Rows(raw: seq<RawPoint>, hourly: seq<AggregatePoint>, daily: seq<AggregatePoint>)

  /** A bucket of one disk, as the reader compares them. */
  type Cover = set<(nat, string)>

  function RawHours(points: seq<RawPoint>): Cover {
    set p | p in points :: (HourBucket(p.timestamp), p.serial)
  }

  function RawDays(points: seq<RawPoint>): Cover {
    set p | p in points :: (DayBucket(p.timestamp), p.serial)
  }

  function HourlyDays(points: seq<AggregatePoint>): Cover {
    set p | p in points :: (DayBucket(p.timestamp), p.serial)
  }

  function At(p: AggregatePoint): (nat, string) {
    (p.timestamp, p.serial)
  }

  function ErrorRows(selected: Rows): Rows {
    var rawHours, rawDays := RawHours(selected.raw), RawDays(selected.raw);
    var hourly := Filter(selected.hourly, (p: AggregatePoint) => At(p) !in rawHours);
    var hourlyDays := HourlyDays(hourly);
    Rows(selected.raw, hourly,
         Filter(selected.daily, (p: AggregatePoint) => At(p) !in rawDays && At(p) !in hourlyDays))
  }

  function TemperatureRows(selected: Rows): Rows {
    var raw := Filter(selected.raw, (p: RawPoint) => p.temperature.Some?);
    var rawHours, rawDays := RawHours(raw), RawDays(raw);
    var hourly := Filter(selected.hourly, (p: AggregatePoint) => p.tempAvg.Some? && At(p) !in rawHours);
    var hourlyDays := HourlyDays(hourly);
    Rows(raw, hourly,
         Filter(selected.daily, (p: AggregatePoint) => p.tempAvg.Some? && At(p) !in rawDays && At(p) !in hourlyDays))
  }

  /** Nothing is reported by two layers: no hour by raw and hourly, no day by daily and a finer one. */
  ghost predicate ReportedOnce(shown: Rows) {
    && (forall h, r :: h in shown.hourly && r in shown.raw ==> At(h) != (HourBucket(r.timestamp), r.serial))
    && (forall d, r :: d in shown.daily && r in shown.raw ==> At(d) != (DayBucket(r.timestamp), r.serial))
    && (forall d, h :: d in shown.daily && h in shown.hourly ==> At(d) != (DayBucket(h.timestamp), h.serial))
  }

  /** The merge only leaves rows out. */
  ghost predicate PartOf(shown: Rows, selected: Rows) {
    && (forall r :: r in shown.raw ==> r in selected.raw)
    && (forall h :: h in shown.hourly ==> h in selected.hourly)
    && (forall d :: d in shown.daily ==> d in selected.daily)
  }

  /** A raw row of the same hour, or of the same day, and of the same disk is shown. */
  ghost predicate HourCoveredByRaw(p: AggregatePoint, shown: Rows) {
    exists r :: r in shown.raw && At(p) == (HourBucket(r.timestamp), r.serial)
  }

  ghost predicate DayCoveredByRaw(p: AggregatePoint, shown: Rows) {
    exists r :: r in shown.raw && At(p) == (DayBucket(r.timestamp), r.serial)
  }

  ghost predicate DayCoveredByHourly(p: AggregatePoint, shown: Rows) {
    exists h :: h in shown.hourly && At(p) == (DayBucket(h.timestamp), h.serial)
  }

  /** Every aggregate row with data is shown, or a shown finer row has its bucket and disk. */
  lemma ErrorMerge(selected: Rows)
    ensures ReportedOnce(ErrorRows(selected)) && PartOf(ErrorRows(selected), selected)
    ensures ErrorRows(selected).raw == selected.raw
    ensures forall h :: h in selected.hourly ==>
            h in ErrorRows(selected).hourly || HourCoveredByRaw(h, ErrorRows(selected))
    ensures forall d :: d in selected.daily ==>
      || d in ErrorRows(selected).daily
      || DayCoveredByRaw(d, ErrorRows(selected)) || DayCoveredByHourly(d, ErrorRows(selected))
  {
  }

  /** The same for temperatures, where rows without a reading do not take part. */
  lemma TemperatureMerge(selected: Rows)
    ensures ReportedOnce(TemperatureRows(selected)) && PartOf(TemperatureRows(selected), selected)
    ensures forall h :: h in selected.hourly && h.tempAvg.Some? ==>
      h in TemperatureRows(selected).hourly || HourCoveredByRaw(h, TemperatureRows(selected))
    ensures forall d :: d in selected.daily && d.tempAvg.Some? ==>
      || d in TemperatureRows(selected).daily
      || DayCoveredByRaw(d, TemperatureRows(selected)) || DayCoveredByHourly(d, TemperatureRows(selected))
    ensures forall r :: r in selected.raw && r.temperature.Some? ==> r in TemperatureRows(selected).raw
  {
  }

  // ------------------------------------------------------------- rows loaded from the database

  /** A slot and the range of time that is loaded. */
  datatype Window = Window(enclosure: int, slot: int, cutoff: nat, until: nat) {
    predicate Holds(enclosure: int, slot: int, at: nat) {
      enclosure == this.enclosure && slot == this.slot && cutoff <= at <= until
    }
  }

  predicate IsPointOf(p: RawPoint, s: Sample) {
    p.timestamp == s.at && p.serial == s.serial && p.temperature == s.temperature
    && p.media == s.media && p.other == s.other && p.predictive == s.predictive
  }

  predicate IsRowOf(p: AggregatePoint, key: Key, m: Metrics) {
    p.timestamp == key.bucket && p.serial == key.serial
    && p.tempMin == m.tempMin && p.tempMax == m.tempMax && p.tempAvg == m.tempAvg
    && p.media == m.media && p.other == m.other && p.predictive == m.predictive
  }

  /** Every loaded point is a row of the slot and range. */
  ghost predicate Sound(points: seq<AggregatePoint>, table: Table, w: Window) {
    forall p :: p in points ==>
      exists key :: key in table && w.Holds(key.enclosure, key.slot, key.bucket) && IsRowOf(p, key, table[key])
  }

  /** Every row of the slot and range is loaded. */
  ghost predicate Complete(points: seq<AggregatePoint>, table: Table, w: Window) {
    forall key :: key in table && w.Holds(key.enclosure, key.slot, key.bucket) ==>
      exists p :: p in points && IsRowOf(p, key, table[key])
  }

  ghost predicate LoadsTable(points: seq<AggregatePoint>, table: Table, w: Window) {
    Sound(points, table, w) && Complete(points, table, w)
  }

  /** The rows are what the three queries return for a slot and a range, in any order. */
  ghost predicate Loads(rows: Rows, t: Layers, w: Window) {
    && (forall p :: p in rows.raw ==> exists s :: s in t.raw && w.Holds(s.enclosure, s.slot, s.at) && IsPointOf(p, s))
    && (forall s :: s in t.raw && w.Holds(s.enclosure, s.slot, s.at) ==> exists p :: p in rows.raw && IsPointOf(p, s))
    && LoadsTable(rows.hourly, t.hourly, w)
    && LoadsTable(rows.daily, t.daily, w)
  }

  /** The layers of a tiered state meet at the two cutoffs. */
  lemma LayersDoNotOverlap(rows: Rows, world: World, w: Window)
    requires Tiered(world) && Loads(rows, world.layers, w)
    ensures forall r :: r in rows.raw ==>
            world.rawCut <= HourBucket(r.timestamp) && world.hourlyCut <= DayBucket(r.timestamp)
    ensures forall h :: h in rows.hourly ==> h.timestamp < world.rawCut && world.hourlyCut <= DayBucket(h.timestamp)
    ensures forall d :: d in rows.daily ==> d.timestamp < world.hourlyCut
  {
    forall r | r in rows.raw
      ensures world.rawCut <= HourBucket(r.timestamp) && world.hourlyCut <= DayBucket(r.timestamp)
    {
      HourBelowBoundary(r.timestamp, world.rawCut);
      DayBelowBoundary(r.timestamp, world.hourlyCut);
    }
    forall h | h in rows.hourly ensures h.timestamp < world.rawCut && world.hourlyCut <= DayBucket(h.timestamp) {
      DayBelowBoundary(h.timestamp, world.hourlyCut);
    }
  }

  /** In every state the retention job reaches, the merge drops no row of the error series. */
  lemma ReachableStatesDropNothing(rows: Rows, ops: seq<Op>, c: Settings, w: Window)
    requires c.rawDays <= c.hourlyDays && Loads(rows, Run(ops, c).layers, w)
    ensures ErrorRows(rows) == rows
  {
    EveryRunIsTiered(ops, c);
    LayersDoNotOverlap(rows, Run(ops, c), w);
    var rawHours, rawDays := RawHours(rows.raw), RawDays(rows.raw);
    FilterAll(rows.hourly, (p: AggregatePoint) => At(p) !in rawHours);
    var hourlyDays := HourlyDays(rows.hourly);
    FilterAll(rows.daily, (p: AggregatePoint) => At(p) !in rawDays && At(p) !in hourlyDays);
  }

  /** Nor does it drop a row of the temperature series that has a reading. */
  lemma ReachableStatesDropNoReading(rows: Rows, ops: seq<Op>, c: Settings, w: Window)
    requires c.rawDays <= c.hourlyDays && Loads(rows, Run(ops, c).layers, w)
    ensures forall h :: h in rows.hourly && h.tempAvg.Some? ==> h in TemperatureRows(rows).hourly
    ensures forall d :: d in rows.daily && d.tempAvg.Some? ==> d in TemperatureRows(rows).daily
  {
    EveryRunIsTiered(ops, c);
    LayersDoNotOverlap(rows, Run(ops, c), w);
  }

  // ------------------------------------------------------------- serial window

  function Serials(rows: Rows): set<string> {
    (set r | r in rows.raw :: r.serial) + (set h | h in rows.hourly :: h.serial) + (set d | d in rows.daily :: d.serial)
  }

  function SelectRowsForSerialWindow(rows: Rows, current: string): Rows {
    if |Serials(rows)| > 1 then rows else
      Rows(Filter(rows.raw, (r: RawPoint) => r.serial == current),
           Filter(rows.hourly, (h: AggregatePoint) => h.serial == current),
           Filter(rows.daily, (d: AggregatePoint) => d.serial == current))
  }

  /** A slot's history is shown whole, unless all of it belongs to one disk that is gone. */
  lemma SerialWindowIsAllOrNothing(rows: Rows, current: string)
    ensures var kept := SelectRowsForSerialWindow(rows, current); kept == rows || kept == Rows([], [], [])
    ensures SelectRowsForSerialWindow(rows, current) == rows <==>
            Serials(rows) == {} || current in Serials(rows) || |Serials(rows)| > 1
  {
    var all, kept := Serials(rows), SelectRowsForSerialWindow(rows, current);
    forall r | r in rows.raw ensures r.serial in all {}
    forall h | h in rows.hourly ensures h.serial in all {}
    forall d | d in rows.daily ensures d.serial in all {}
    if |all| <= 1 {
      if current in all {
        var others := all - {current};
        assert |others| == 0;
        assert all <= {current} + others;
        FilterAll(rows.raw, (r: RawPoint) => r.serial == current);
        FilterAll(rows.hourly, (h: AggregatePoint) => h.serial == current);
        FilterAll(rows.daily, (d: AggregatePoint) => d.serial == current);
      } else {
        FilterNone(rows.raw, (r: RawPoint) => r.serial == current);
        FilterNone(rows.hourly, (h: AggregatePoint) => h.serial == current);
        FilterNone(rows.daily, (d: AggregatePoint) => d.serial == current);
        if rows == kept {
          assert all == {};
        }
      }
    }
  }

  // ------------------------------------------------------------- what is shown about a day

  /** What a series shows of a day: the largest error counts, and the extremes of the temperature. */
  datatype Measure = MediaMax | OtherMax | PredictiveMax | Coldest | Hottest {
    predicate IsTemperature() {
      Coldest? || Hottest?
    }

    function Of(): Field {
      match this
      case MediaMax => MediaField
      case OtherMax => OtherField
      case PredictiveMax => PredictiveField
      case Coldest => TemperatureField
      case Hottest => TemperatureField
    }

    /** Not more extreme than the bound; a bound there must be. */
    predicate Within(value: Option<int>, bound: Option<int>) {
      value.Some? ==> bound.Some? && if Coldest? then bound.value <= value.value else value.value <= bound.value
    }
  }

  predicate RawOfDay(r: RawPoint, day: Key) {
    r.serial == day.serial && DayBucket(r.timestamp) == day.bucket
  }

  predicate RowOfDay(p: AggregatePoint, day: Key) {
    p.serial == day.serial && DayBucket(p.timestamp) == day.bucket
  }

  function RawValue(r: RawPoint, m: Measure): Option<int> {
    match m
    case MediaMax => Some(r.media)
    case OtherMax => Some(r.other)
    case PredictiveMax => Some(r.predictive)
    case Coldest => r.temperature
    case Hottest => r.temperature
  }

  function RowValue(p: AggregatePoint, m: Measure): Option<int> {
    match m
    case MediaMax => Some(p.media)
    case OtherMax => Some(p.other)
    case PredictiveMax => Some(p.predictive)
    case Coldest => p.tempMin
    case Hottest => p.tempMax
  }

  function StoredValue(r: Metrics, m: Measure): Option<int> {
    match m
    case MediaMax => Some(r.media)
    case OtherMax => Some(r.other)
    case PredictiveMax => Some(r.predictive)
    case Coldest => r.tempMin
    case Hottest => r.tempMax
  }

  function AggValue(a: Agg, m: Measure): Option<int> {
    match m
    case MediaMax => Some(a.media)
    case OtherMax => Some(a.other)
    case PredictiveMax => Some(a.predictive)
    case Coldest => a.tempMin
    case Hottest => a.tempMax
  }

  /** What the never-pruned history says about a day. */
  ghost function HistoryValue(log: seq<Sample>, day: Key, m: Measure): Option<int> {
    AggValue(Total(log, OfDay(day)), m)
  }

  /** A temperature, or an error count that is not zero; zero is also what an empty day has. */
  predicate Telling(value: Option<int>, m: Measure) {
    value.Some? && (m.IsTemperature() || value.value != 0)
  }

  /** Some point of the day, in one of the layers, carries the value. */
  ghost predicate RawShows(shown: Rows, day: Key, m: Measure, value: int) {
    exists r :: r in shown.raw && RawOfDay(r, day) && RawValue(r, m) == Some(value)
  }

  ghost predicate LayerShows(points: seq<AggregatePoint>, day: Key, m: Measure, value: int) {
    exists p :: p in points && RowOfDay(p, day) && RowValue(p, m) == Some(value)
  }

  ghost predicate IsShown(shown: Rows, day: Key, m: Measure, value: int) {
    RawShows(shown, day, m, value) || LayerShows(shown.hourly, day, m, value) || LayerShows(shown.daily, day, m, value)
  }

  lemma SampleIsWithin(log: seq<Sample>, p: Sample -> bool, s: Sample, m: Measure)
    requires s in log && p(s)
    ensures m.Within(Read(s, m.Of()), AggValue(Total(log, p), m))
  {
    TotalBounds(log, p, s);
  }

  lemma ExtremeIsASample(log: seq<Sample>, p: Sample -> bool, m: Measure)
    requires Telling(AggValue(Total(log, p), m), m)
    ensures Occurs(log, p, m.Of(), AggValue(Total(log, p), m).value)
  {
    TotalAttained(log, p);
  }

  lemma HourWithinDay(log: seq<Sample>, hour: Key, m: Measure)
    ensures m.Within(AggValue(Total(log, OfHour(hour)), m), HistoryValue(log, DayOf(hour), m))
  {
    var value := AggValue(Total(log, OfHour(hour)), m);
    if Telling(value, m) {
      ExtremeIsASample(log, OfHour(hour), m);
      var s :| s in log && OfHour(hour)(s) && Read(s, m.Of()) == value;
      DayOfHourKey(s);
      SampleIsWithin(log, OfDay(DayOf(hour)), s, m);
    }
  }

  /** Stored rows of a day carry nothing more extreme than its history. */
  ghost predicate RowsBounded(t: Table, day: Key, m: Measure, bound: Option<int>) {
    forall key :: key in t && DayOf(key) == day ==> m.Within(StoredValue(t[key], m), bound)
  }

  lemma HoursAreBounded(log: seq<Sample>, lo: nat, hi: nat, day: Key, m: Measure)
    ensures RowsBounded(HoursBetween(log, lo, hi), day, m, HistoryValue(log, day, m))
  {
    var t := HoursBetween(log, lo, hi);
    forall key | key in t && DayOf(key) == day ensures m.Within(StoredValue(t[key], m), HistoryValue(log, day, m)) {
      HourWithinDay(log, key, m);
    }
  }

  lemma DaysAreBounded(log: seq<Sample>, end: nat, day: Key, m: Measure)
    ensures RowsBounded(DaysBefore(log, end), day, m, HistoryValue(log, day, m))
  {
  }

  lemma LoadedRowsAreBounded(points: seq<AggregatePoint>, t: Table, w: Window, day: Key, m: Measure,
                             bound: Option<int>, value: int)
    requires RowsBounded(t, day, m, bound) && Sound(points, t, w)
    requires w.enclosure == day.enclosure && w.slot == day.slot && LayerShows(points, day, m, value)
    ensures m.Within(Some(value), bound)
  {
  }

  lemma LoadedRawIsBounded(points: seq<RawPoint>, raw: seq<Sample>, w: Window, day: Key, m: Measure,
                           bound: Option<int>, value: int)
    requires w.enclosure == day.enclosure && w.slot == day.slot
    requires forall s :: s in raw && DayKey(s) == day ==> m.Within(Read(s, m.Of()), bound)
    requires forall p :: p in points ==> exists s :: s in raw && w.Holds(s.enclosure, s.slot, s.at) && IsPointOf(p, s)
    requires exists r :: r in points && RawOfDay(r, day) && RawValue(r, m) == Some(value)
    ensures m.Within(Some(value), bound)
  {
  }

  /** No shown value is more extreme than the full history of its day. */
  lemma ShownValuesAreBounded(rows: Rows, world: World, w: Window, day: Key, m: Measure, value: int)
    requires Tiered(world) && Loads(rows, world.layers, w)
    requires w.enclosure == day.enclosure && w.slot == day.slot && IsShown(rows, day, m, value)
    ensures m.Within(Some(value), HistoryValue(world.log, day, m))
  {
    var t, bound := world.layers, HistoryValue(world.log, day, m);
    if RawShows(rows, day, m, value) {
      forall s | s in t.raw && DayKey(s) == day ensures m.Within(Read(s, m.Of()), bound) {
        SampleIsWithin(world.log, OfDay(day), s, m);
      }
      LoadedRawIsBounded(rows.raw, t.raw, w, day, m, bound, value);
    } else if LayerShows(rows.hourly, day, m, value) {
      HoursAreBounded(world.log, world.hourlyCut, world.rawCut, day, m);
      LoadedRowsAreBounded(rows.hourly, t.hourly, w, day, m, bound, value);
    } else {
      DaysAreBounded(world.log, world.hourlyCut, day, m);
      LoadedRowsAreBounded(rows.daily, t.daily, w, day, m, bound, value);
    }
  }

  lemma StoredRowIsShown(points: seq<AggregatePoint>, t: Table, w: Window, day: Key, m: Measure, key: Key)
    requires Complete(points, t, w) && key in t && DayOf(key) == day && w.Holds(key.enclosure, key.slot, key.bucket)
    requires StoredValue(t[key], m).Some?
    ensures LayerShows(points, day, m, StoredValue(t[key], m).value)
  {
  }

  /** The hour that holds the day's extreme stores that very value. */
  lemma ExtremeIsStored(log: seq<Sample>, lo: nat, hi: nat, day: Key, m: Measure, s: Sample)
    requires s in log && DayKey(s) == day && lo <= HourBucket(s.at) < hi
    requires HistoryValue(log, day, m).Some? && Read(s, m.Of()) == HistoryValue(log, day, m)
    ensures var t := HoursBetween(log, lo, hi);
      HourKey(s) in t && StoredValue(t[HourKey(s)], m) == HistoryValue(log, day, m)
  {
    HourWithinDay(log, HourKey(s), m);
    DayOfHourKey(s);
    SampleIsWithin(log, OfHour(HourKey(s)), s, m);
  }

  lemma LoadedSampleIsShown(rows: Rows, raw: seq<Sample>, w: Window, day: Key, m: Measure, s: Sample)
    requires s in raw && DayKey(s) == day && w.Holds(s.enclosure, s.slot, s.at) && Read(s, m.Of()).Some?
    requires forall x :: x in raw && w.Holds(x.enclosure, x.slot, x.at) ==> exists p :: p in rows.raw && IsPointOf(p, x)
    ensures RawShows(rows, day, m, Read(s, m.Of()).value)
  {
  }

  /** A day that lies inside the loaded range of its slot. */
  predicate Inside(day: Key, w: Window) {
    && day.bucket % DAY == 0 && w.enclosure == day.enclosure && w.slot == day.slot
    && w.cutoff <= day.bucket && day.bucket + DAY <= w.until + 1
  }

  /** The extreme of the full history of a day is loaded, from whichever layer still holds it. */
  lemma HistoryExtremeIsLoaded(rows: Rows, world: World, w: Window, day: Key, m: Measure, s: Sample)
    requires Tiered(world) && Loads(rows, world.layers, w) && Inside(day, w)
    requires s in world.log && DayKey(s) == day
    requires HistoryValue(world.log, day, m).Some? && Read(s, m.Of()) == HistoryValue(world.log, day, m)
    ensures IsShown(rows, day, m, HistoryValue(world.log, day, m).value)
  {
    HourBelowBoundary(s.at, world.rawCut);
    DayBelowBoundary(s.at, world.hourlyCut);
    DayBoundaryIsHourBoundary(day.bucket);
    HourBelowBoundary(s.at, day.bucket);
    DayOfHourKey(s);
    if world.rawCut <= s.at {
      assert s in world.layers.raw;
      LoadedSampleIsShown(rows, world.layers.raw, w, day, m, s);
    } else if world.hourlyCut <= day.bucket {
      ExtremeIsStored(world.log, world.hourlyCut, world.rawCut, day, m, s);
      StoredRowIsShown(rows.hourly, world.layers.hourly, w, day, m, HourKey(s));
    } else {
      assert day in world.layers.daily && DayBucket(day.bucket) == day.bucket;
      StoredRowIsShown(rows.daily, world.layers.daily, w, day, m, day);
    }
  }

  /** What is loaded of a day is bounded by its history and, unless that is empty, contains its extreme. */
  lemma LoadedExtremesEqualTheHistory(rows: Rows, world: World, w: Window, day: Key, m: Measure)
    requires Tiered(world) && Loads(rows, world.layers, w) && Inside(day, w)
    ensures var extreme := HistoryValue(world.log, day, m);
      && (forall value :: IsShown(rows, day, m, value) ==> m.Within(Some(value), extreme))
      && (Telling(extreme, m) ==> IsShown(rows, day, m, extreme.value))
  {
    var extreme := HistoryValue(world.log, day, m);
    forall value | IsShown(rows, day, m, value) ensures m.Within(Some(value), extreme) {
      ShownValuesAreBounded(rows, world, w, day, m, value);
    }
    if Telling(extreme, m) {
      ExtremeIsASample(world.log, OfDay(day), m);
      var s :| s in world.log && OfDay(day)(s) && Read(s, m.Of()) == extreme;
      HistoryExtremeIsLoaded(rows, world, w, day, m, s);
    }
  }

  /** A stored row has extremes exactly when it has a mean. */
  lemma RowsHaveMeansOrNothing(rows: Rows, world: World, w: Window)
    requires Tiered(world) && Loads(rows, world.layers, w)
    ensures forall h :: h in rows.hourly && (h.tempMin.Some? || h.tempMax.Some?) ==> h.tempAvg.Some?
    ensures forall d :: d in rows.daily && (d.tempMin.Some? || d.tempMax.Some?) ==> d.tempAvg.Some?
  {
  }

  /** In every reachable state the temperature series shows every reading that was loaded. */
  lemma LoadedReadingsAreShown(rows: Rows, ops: seq<Op>, c: Settings, w: Window, day: Key, m: Measure, value: int)
    requires c.rawDays <= c.hourlyDays && Loads(rows, Run(ops, c).layers, w) && m.IsTemperature()
    ensures IsShown(TemperatureRows(rows), day, m, value) <==> IsShown(rows, day, m, value)
  {
    hide Loads, Tiered, Run, TemperatureRows, ReportedOnce;
    EveryRunIsTiered(ops, c);
    ReachableStatesDropNoReading(rows, ops, c, w);
    RowsHaveMeansOrNothing(rows, Run(ops, c), w);
    TemperatureMerge(rows);
  }

  lemma NothingIsShown(day: Key, m: Measure, value: int)
    ensures !IsShown(ErrorRows(Rows([], [], [])), day, m, value)
    ensures !IsShown(TemperatureRows(Rows([], [], [])), day, m, value)
  {
  }

  /** Something that is shown belongs to a disk of the window. */
  lemma ShownHasASerial(rows: Rows, day: Key, m: Measure, value: int)
    requires IsShown(rows, day, m, value)
    ensures Serials(rows) != {}
  {
    if RawShows(rows, day, m, value) {
      var r :| r in rows.raw && RawOfDay(r, day) && RawValue(r, m) == Some(value);
      assert r.serial in Serials(rows);
    } else if LayerShows(rows.hourly, day, m, value) {
      var h :| h in rows.hourly && RowOfDay(h, day) && RowValue(h, m) == Some(value);
      assert h.serial in Serials(rows);
    } else {
      var d :| d in rows.daily && RowOfDay(d, day) && RowValue(d, m) == Some(value);
      assert d.serial in Serials(rows);
    }
  }

  /** The rows of a window are shown whole when it holds the current disk or more than one disk. */
  predicate WindowIsShown(rows: Rows, current: string) {
    current in Serials(rows) || |Serials(rows)| > 1
  }

  /**
   * For every run, every day inside the requested range and every error counter: nothing shown for
   * a disk exceeds the maximum of the history that was never pruned, and that maximum, unless it is
   * zero, is shown exactly when the window is.
   */
  lemma ShownMaximaEqualTheHistory(rows: Rows, ops: seq<Op>, c: Settings, w: Window, day: Key, m: Measure,
                                   current: string)
    requires c.rawDays <= c.hourlyDays && Loads(rows, Run(ops, c).layers, w) && Inside(day, w) && !m.IsTemperature()
    ensures var shown := ErrorRows(SelectRowsForSerialWindow(rows, current));
      var maximum := HistoryValue(Run(ops, c).log, day, m);
      && (forall value :: IsShown(shown, day, m, value) ==> m.Within(Some(value), maximum))
      && (Telling(maximum, m) ==> (IsShown(shown, day, m, maximum.value) <==> WindowIsShown(rows, current)))
  {
    var maximum := HistoryValue(Run(ops, c).log, day, m);
    EveryRunIsTiered(ops, c);
    ReachableStatesDropNothing(rows, ops, c, w);
    LoadedExtremesEqualTheHistory(rows, Run(ops, c), w, day, m);
    SerialWindowIsAllOrNothing(rows, current);
    if Telling(maximum, m) {
      ShownHasASerial(rows, day, m, maximum.value);
    }
    if SelectRowsForSerialWindow(rows, current) != rows {
      forall value ensures !IsShown(ErrorRows(Rows([], [], [])), day, m, value) {
        NothingIsShown(day, m, value);
      }
    }
  }

  /**
   * The same for temperatures: the lowest minimum and the highest maximum shown for a day are those
   * of all its readings, and they are shown exactly when the window is.
   */
  lemma ShownTemperaturesEqualTheHistory(rows: Rows, ops: seq<Op>, c: Settings, w: Window, day: Key, m: Measure,
                                         current: string)
    requires c.rawDays <= c.hourlyDays && Loads(rows, Run(ops, c).layers, w) && Inside(day, w) && m.IsTemperature()
    ensures var shown := TemperatureRows(SelectRowsForSerialWindow(rows, current));
      var extreme := HistoryValue(Run(ops, c).log, day, m);
      && (forall value :: IsShown(shown, day, m, value) ==> m.Within(Some(value), extreme))
      && (extreme.Some? ==> (IsShown(shown, day, m, extreme.value) <==> WindowIsShown(rows, current)))
  {
    var extreme := HistoryValue(Run(ops, c).log, day, m);
    EveryRunIsTiered(ops, c);
    LoadedExtremesEqualTheHistory(rows, Run(ops, c), w, day, m);
    SerialWindowIsAllOrNothing(rows, current);
    if extreme.Some? {
      ShownHasASerial(rows, day, m, extreme.value);
    }
    forall value
      ensures IsShown(TemperatureRows(rows), day, m, value) <==> IsShown(rows, day, m, value)
      ensures !IsShown(TemperatureRows(Rows([], [], [])), day, m, value)
    {
      LoadedReadingsAreShown(rows, ops, c, w, day, m, value);
      NothingIsShown(day, m, value);
    }
  }
}
