/**
 * The retention job: raw samples roll up into hourly rows, hourly rows into daily rows, and
 * what was rolled up is pruned in the same transaction.
 */
module Retention {
  import opened Prelude
  import opened Sequences
  import opened Aggregates

  /** A row of the hourly or the daily metrics table, without its key. */
  datatype Metrics = Metrics(
    tempMin: Option<int>, tempMax: Option<int>, tempAvg: Option<real>, tempCount: nat,
    media: int, other: int, predictive: int, samples: nat)

  type Table = map<Key, Metrics>

  /** The three layers that survive in the database. */
  datatype Layers = Layers(raw: seq<Sample>, hourly: Table, daily: Table)

  function RowOf(a: Agg): Metrics {
    Metrics(a.tempMin, a.tempMax, if a.tempCount == 0 then None else Some(a.tempSum / a.tempCount as real),
            a.tempCount, a.media, a.other, a.predictive, a.samples)
  }

  predicate Weighed(m: Metrics) {
    m.tempAvg.Some? && m.tempCount > 0
  }

  /** A stored mean weighs as many readings as it was taken over. */
  function Weight(m: Metrics): real
    requires m.tempAvg.Some?
  {
    m.tempAvg.value * m.tempCount as real
  }

  /** What a stored row contributes when it is aggregated again. */
  function AggOf(m: Metrics): Agg {
    Agg(m.samples, Max(0, m.media), Max(0, m.other), Max(0, m.predictive),
        if Weighed(m) then m.tempCount else 0, if Weighed(m) then Weight(m) else 0.0,
        m.tempMin, m.tempMax)
  }

  /** Storing an aggregate as a row loses nothing: the mean and the count give the sum back. */
  lemma RowKeepsAggregate(a: Agg)
    requires a.WellFormed() && a.media >= 0 && a.other >= 0 && a.predictive >= 0
    ensures AggOf(RowOf(a)) == a
  {
    if a.tempCount > 0 {
      var n := a.tempCount as real;
      assert (a.tempSum / n) * n == a.tempSum;
    }
  }

  // ------------------------------------------------------------- specification of the tables

  predicate InHour(s: Sample, key: Key, end: nat) {
    s.at < end && HourKey(s) == key
  }

  ghost function HourTotal(raw: seq<Sample>, key: Key, end: nat): Agg {
    Total(raw, s => InHour(s, key, end))
  }

  ghost function HourKeys(raw: seq<Sample>, end: nat): set<Key> {
    set s | s in raw && s.at < end :: HourKey(s)
  }

  /** The hourly rows of all raw samples older than `end`. */
  ghost function HourlyRows(raw: seq<Sample>, end: nat): Table {
    map key | key in HourKeys(raw, end) :: RowOf(HourTotal(raw, key, end))
  }

  /** The merge of the first `n` hours of a day. */
  ghost function HoursMerged(hourly: Table, day: Key, n: nat): Agg {
    if n == 0 then NOTHING else
      var hour := day.(bucket := day.bucket + (n - 1) * HOUR);
      var rest := HoursMerged(hourly, day, n - 1);
      if hour in hourly then Merge(rest, AggOf(hourly[hour])) else rest
  }

  ghost function DaysOf(hourly: Table): set<Key> {
    set hour | hour in hourly :: DayOf(hour)
  }

  ghost function Older(hourly: Table, end: nat): Table {
    map hour | hour in hourly && hour.bucket < end :: hourly[hour]
  }

  /** The daily rows of all hourly rows older than `end`. */
  ghost function DailyRows(hourly: Table, end: nat): Table {
    var due := Older(hourly, end);
    map day | day in DaysOf(due) :: RowOf(HoursMerged(due, day, HOURS_PER_DAY))
  }

  ghost predicate HourAligned(hourly: Table) {
    forall hour :: hour in hourly ==> hour.bucket % HOUR == 0
  }

  function NotBefore(cutoff: nat): Sample -> bool {
    (s: Sample) => s.at >= cutoff
  }

  ghost function NewerRows(hourly: Table, cutoff: nat): Table {
    map hour | hour in hourly && hour.bucket >= cutoff :: hourly[hour]
  }

  /** The raw cutoff of a run, and the cutoff of its hourly rows. */
  function RawCutoff(now: nat, rawDays: nat): nat
    requires rawDays * DAY <= now
  {
    HourBucket(now - rawDays * DAY)
  }

  function HourlyCutoff(now: nat, hourlyDays: nat): nat
    requires hourlyDays * DAY <= now
  {
    DayBucket(now - hourlyDays * DAY)
  }

  /** One whole retention transaction. */
  ghost function Retained(t: Layers, rawEnd: nat, hourlyEnd: nat): Layers {
    var hourly := t.hourly + HourlyRows(t.raw, rawEnd);
    Layers(Filter(t.raw, NotBefore(rawEnd)), NewerRows(hourly, hourlyEnd), t.daily + DailyRows(hourly, hourlyEnd))
  }

  // ------------------------------------------------------------- accumulators

  function SumOf(values: seq<int>): int {
    if values == [] then 0 else SumOf(values[..|values| - 1]) + values[|values| - 1]
  }

  function MinOf(values: seq<int>): Option<int> {
    if values == [] then None else OptMin(MinOf(values[..|values| - 1]), Some(values[|values| - 1]))
  }

  function MaxOf(values: seq<int>): Option<int> {
    if values == [] then None else OptMax(MaxOf(values[..|values| - 1]), Some(values[|values| - 1]))
  }

  lemma AppendReading(values: seq<int>, v: int)
    ensures SumOf(values + [v]) == SumOf(values) + v
    ensures MinOf(values + [v]) == OptMin(MinOf(values), Some(v))
    ensures MaxOf(values + [v]) == OptMax(MaxOf(values), Some(v))
  {
    assert (values + [v])[..|values|] == values;
  }

  class RawMetricsAccumulator {
    const bucketStart: nat
    const enclosure: int
    const slot: int
    var serial: string
    var mediaMax: int
    var otherMax: int
    var predictiveMax: int
    var sampleCount: nat
    var latestSeenAt: nat
    var temperatures: seq<int>

    constructor (key: Key)
      ensures Valid() && AccKey() == key && Contents() == NOTHING
    {
      bucketStart, enclosure, slot, serial := key.bucket, key.enclosure, key.slot, key.serial;
      mediaMax, otherMax, predictiveMax, sampleCount, latestSeenAt, temperatures := 0, 0, 0, 0, 0, [];
    }

    function AccKey(): Key
      reads this
    {
      Key(bucketStart, enclosure, slot, serial)
    }

    /** The maxima never fall below their initial zero. */
    ghost predicate Valid()
      reads this
    {
      mediaMax >= 0 && otherMax >= 0 && predictiveMax >= 0
    }

    ghost function Contents(): Agg
      reads this
    {
      Agg(sampleCount, mediaMax, otherMax, predictiveMax, |temperatures|, SumOf(temperatures) as real,
          MinOf(temperatures), MaxOf(temperatures))
    }

    method Add(s: Sample)
      requires Valid()
      modifies this
      ensures Valid()
      ensures Contents() == Merge(old(Contents()), OfSample(s))
      ensures serial == if s.at >= old(latestSeenAt) then s.serial else old(serial)
    {
      sampleCount := sampleCount + 1;
      mediaMax := Max(mediaMax, s.media);
      otherMax := Max(otherMax, s.other);
      predictiveMax := Max(predictiveMax, s.predictive);
      AddReading(s.temperature, OfSample(s));
      if s.at >= latestSeenAt {
        latestSeenAt := s.at;
        serial := s.serial;
      }
    }

    /** The temperature part of `Add`; `added` is what the sample contributes. */
    method AddReading(reading: Option<int>, ghost added: Agg)
      requires added.tempMin == added.tempMax == reading
      requires added.tempCount == if reading.Some? then 1 else 0
      requires added.tempSum == if reading.Some? then reading.value as real else 0.0
      modifies this`temperatures
      ensures |temperatures| == old(|temperatures|) + added.tempCount
      ensures SumOf(temperatures) as real == old(SumOf(temperatures)) as real + added.tempSum
      ensures MinOf(temperatures) == OptMin(old(MinOf(temperatures)), added.tempMin)
      ensures MaxOf(temperatures) == OptMax(old(MaxOf(temperatures)), added.tempMax)
    {
      if reading.Some? {
        AppendReading(temperatures, reading.value);
        temperatures := temperatures + [reading.value];
      }
    }

    /** The row this accumulator is stored as. */
    method Summary() returns (row: Metrics)
      ensures row == RowOf(Contents())
    {
      var low, high := MinOf(temperatures), MaxOf(temperatures);
      var mean := if temperatures == [] then None else Some(SumOf(temperatures) as real / |temperatures| as real);
      row := Metrics(low, high, mean, |temperatures|, mediaMax, otherMax, predictiveMax, sampleCount);
    }
  }

  class HourlyMetricsAccumulator {
    const bucketStart: nat
    const enclosure: int
    const slot: int
    var serial: string
    var mediaMax: int
    var otherMax: int
    var predictiveMax: int
    var sampleCount: nat
    var weightedSum: real
    var temperatureCount: nat
    var latestSeenAt: nat
    var mins: seq<int>
    var maxes: seq<int>

    constructor (key: Key)
      ensures Valid() && AccKey() == key && Contents() == NOTHING
    {
      bucketStart, enclosure, slot, serial := key.bucket, key.enclosure, key.slot, key.serial;
      mediaMax, otherMax, predictiveMax, sampleCount, latestSeenAt := 0, 0, 0, 0, 0;
      weightedSum, temperatureCount, mins, maxes := 0.0, 0, [], [];
    }

    function AccKey(): Key
      reads this
    {
      Key(bucketStart, enclosure, slot, serial)
    }

    /** The maxima never fall below their initial zero. */
    ghost predicate Valid()
      reads this
    {
      mediaMax >= 0 && otherMax >= 0 && predictiveMax >= 0
    }

    ghost function Contents(): Agg
      reads this
    {
      Agg(sampleCount, mediaMax, otherMax, predictiveMax, temperatureCount, weightedSum, MinOf(mins), MaxOf(maxes))
    }

    method Add(hour: Key, m: Metrics)
      requires Valid()
      modifies this
      ensures Valid()
      ensures Contents() == Merge(old(Contents()), AggOf(m))
      ensures serial == if hour.bucket >= old(latestSeenAt) then hour.serial else old(serial)
    {
      sampleCount := sampleCount + m.samples;
      mediaMax := Max(mediaMax, m.media);
      otherMax := Max(otherMax, m.other);
      predictiveMax := Max(predictiveMax, m.predictive);
      AddTemperatures(m, AggOf(m));
      if hour.bucket >= latestSeenAt {
        latestSeenAt := hour.bucket;
        serial := hour.serial;
      }
    }

    /** The temperature part of `Add`; `added` is what the row contributes. */
    method AddTemperatures(m: Metrics, ghost added: Agg)
      requires added == AggOf(m)
      modifies this`mins, this`maxes, this`weightedSum, this`temperatureCount
      ensures MinOf(mins) == OptMin(old(MinOf(mins)), added.tempMin)
      ensures MaxOf(maxes) == OptMax(old(MaxOf(maxes)), added.tempMax)
      ensures weightedSum == old(weightedSum) + added.tempSum
      ensures temperatureCount == old(temperatureCount) + added.tempCount
    {
      if m.tempMin.Some? {
        AppendReading(mins, m.tempMin.value);
        mins := mins + [m.tempMin.value];
      }
      if m.tempMax.Some? {
        AppendReading(maxes, m.tempMax.value);
        maxes := maxes + [m.tempMax.value];
      }
      if Weighed(m) {
        weightedSum := weightedSum + Weight(m);
        temperatureCount := temperatureCount + m.tempCount;
      }
    }

    method Summary() returns (row: Metrics)
      ensures row == RowOf(Contents())
    {
      var mean := if temperatureCount == 0 then None else Some(weightedSum / temperatureCount as real);
      row := Metrics(MinOf(mins), MaxOf(maxes), mean, temperatureCount, mediaMax, otherMax, predictiveMax, sampleCount);
    }
  }

  // ------------------------------------------------------------- the tables and the job

  ghost predicate Rolled(buckets: map<Key, RawMetricsAccumulator>, seen: seq<Sample>, end: nat)
    reads buckets.Values
  {
    && buckets.Keys == HourKeys(seen, end)
    && (forall k :: k in buckets ==> buckets[k].Valid() && buckets[k].AccKey() == k)
    && (forall k :: k in buckets ==> buckets[k].Contents() == HourTotal(seen, k, end))
    && (forall k, l :: k in buckets && l in buckets && buckets[k] == buckets[l] ==> k == l)
  }

  /** One more sample touches the total of its own hour only. */
  lemma HourTotalAppend(seen: seq<Sample>, s: Sample, key: Key, end: nat)
    ensures HourTotal(seen + [s], key, end) ==
            if InHour(s, key, end) then Merge(HourTotal(seen, key, end), OfSample(s)) else HourTotal(seen, key, end)
    ensures key !in HourKeys(seen, end) ==> HourTotal(seen, key, end) == NOTHING
    ensures HourKeys(seen + [s], end) == HourKeys(seen, end) + (if s.at < end then {HourKey(s)} else {})
  {
    TotalAppend(seen, s, x => InHour(x, key, end));
    if key !in HourKeys(seen, end) {
      TotalOfNone(seen, x => InHour(x, key, end));
    }
    forall k ensures k in HourKeys(seen + [s], end) <==> k in HourKeys(seen, end) || (s.at < end && k == HourKey(s)) {
      if k in HourKeys(seen, end) {
        var x :| x in seen && x.at < end && HourKey(x) == k;
        assert x in seen + [s];
      }
      if s.at < end && k == HourKey(s) {
        assert s in seen + [s];
      }
    }
  }

  /** The merges of all days of a table. */
  ghost function DayTotals(hourly: Table): map<Key, Agg> {
    map day | day in DaysOf(hourly) :: HoursMerged(hourly, day, HOURS_PER_DAY)
  }

  /** One bucket per key, each an object of its own, that holds these aggregates. */
  ghost predicate DayRolled(buckets: map<Key, HourlyMetricsAccumulator>, totals: map<Key, Agg>)
    reads buckets.Values
  {
    && buckets.Keys == totals.Keys
    && (forall k :: k in buckets ==>
          buckets[k].Valid() && buckets[k].AccKey() == k && buckets[k].Contents() == totals[k])
    && (forall k, l :: k in buckets && l in buckets && buckets[k] == buckets[l] ==> k == l)
  }

  function Before(totals: map<Key, Agg>, day: Key): Agg {
    if day in totals then totals[day] else NOTHING
  }

  lemma WithinDay(day: nat, t: nat)
    requires day % DAY == 0 && day <= t < day + DAY
    ensures DayBucket(t) == day
  {
    DayBelowBoundary(t, day);
    DayBelowBoundary(t, day + DAY);
    assert (DayBucket(t) - day) % DAY == 0;
  }

  lemma OneAlignedHour(start: nat, other: nat)
    requires start % HOUR == 0 && other % HOUR == 0 && start <= other < start + HOUR
    ensures other == start
  {
    assert (other - start) % HOUR == 0;
  }

  lemma {:induction false} NthHourIsAligned(start: nat, n: nat)
    requires start % HOUR == 0
    ensures (start + n * HOUR) % HOUR == 0
  {
    if n == 0 {
    } else {
      NthHourIsAligned(start, n - 1);
      assert start + n * HOUR == start + (n - 1) * HOUR + HOUR;
    }
  }

  /** The n-th hour of a day is aligned and belongs to that day; no other aligned hour is there. */
  lemma NthHour(day: Key, n: nat, other: nat)
    requires day.bucket % DAY == 0 && 0 < n <= HOURS_PER_DAY && other % HOUR == 0
    ensures DayOf(day.(bucket := day.bucket + (n - 1) * HOUR)) == day
    ensures day.bucket + (n - 1) * HOUR <= other < day.bucket + n * HOUR ==> other == day.bucket + (n - 1) * HOUR
  {
    var start := day.bucket + (n - 1) * HOUR;
    WithinDay(day.bucket, start);
    if start <= other < start + HOUR {
      DayBoundaryIsHourBoundary(day.bucket);
      NthHourIsAligned(day.bucket, n - 1);
      OneAlignedHour(start, other);
    }
  }

  /** One more hourly row is merged into its own day only, whatever the order of the rows. */
  lemma {:induction false} HoursMergedInsert(seen: Table, hour: Key, row: Metrics, day: Key, n: nat)
    requires hour !in seen && hour.bucket % HOUR == 0 && day.bucket % DAY == 0
    requires n <= HOURS_PER_DAY
    ensures HoursMerged(seen[hour := row], day, n) ==
            if DayOf(hour) == day && hour.bucket < day.bucket + n * HOUR
            then Merge(HoursMerged(seen, day, n), AggOf(row)) else HoursMerged(seen, day, n)
  {
    if n == 0 {
    } else {
      HoursMergedInsert(seen, hour, row, day, n - 1);
      NthHour(day, n, hour.bucket);
      var h := day.(bucket := day.bucket + (n - 1) * HOUR);
      if h in seen {
        MergeElsewhere(HoursMerged(seen, day, n - 1), AggOf(row), AggOf(seen[h]));
      }
    }
  }

  /** An hour that is added to a table changes the merge of its own day alone. */
  lemma OneMoreHour(seen: Table, hour: Key, row: Metrics)
    requires hour !in seen && hour.bucket % HOUR == 0
    ensures DayTotals(seen[hour := row]) ==
            DayTotals(seen)[DayOf(hour) := Merge(Before(DayTotals(seen), DayOf(hour)), AggOf(row))]
  {
    var more, day := seen[hour := row], DayOf(hour);
    assert DaysOf(more) == DaysOf(seen) + {day};
    if day !in DaysOf(seen) {
      HoursMergedOfNone(seen, day, HOURS_PER_DAY);
    }
    forall d | d in DaysOf(more)
      ensures HoursMerged(more, d, HOURS_PER_DAY) ==
        if d == day then Merge(HoursMerged(seen, d, HOURS_PER_DAY), AggOf(row)) else HoursMerged(seen, d, HOURS_PER_DAY)
    {
      HoursMergedInsert(seen, hour, row, d, HOURS_PER_DAY);
    }
  }

  lemma {:induction false} HoursMergedOfNone(seen: Table, day: Key, n: nat)
    requires day.bucket % DAY == 0 && n <= HOURS_PER_DAY
    requires forall hour :: hour in seen ==> DayOf(hour) != day
    ensures HoursMerged(seen, day, n) == NOTHING
  {
    if n == 0 {
    } else {
      HoursMergedOfNone(seen, day, n - 1);
      NthHour(day, n, 0);
    }
  }

  class MetricsStore {
    var raw: seq<Sample>
    var hourly: Table
    var daily: Table

    constructor ()
      ensures State() == Layers([], map[], map[])
    {
      raw, hourly, daily := [], map[], map[];
    }

    ghost function State(): Layers
      reads this
    {
      Layers(raw, hourly, daily)
    }

    method RecordSample(s: Sample)
      modifies this`raw
      ensures raw == old(raw) + [s]
    {
      raw := raw + [s];
    }

    method UpsertHourly(acc: RawMetricsAccumulator)
      modifies this`hourly
      ensures hourly == old(hourly)[acc.AccKey() := RowOf(acc.Contents())]
    {
      var row := acc.Summary();
      hourly := hourly[acc.AccKey() := row];
    }

    /** Puts one joined row into the bucket of its hour, opening the bucket when needed. */
    method AddToHour(buckets: map<Key, RawMetricsAccumulator>, ghost seen: seq<Sample>, s: Sample, end: nat)
      returns (updated: map<Key, RawMetricsAccumulator>)
      requires Rolled(buckets, seen, end)
      requires s.at < end
      modifies buckets.Values
      ensures Rolled(updated, seen + [s], end)
      ensures forall k :: k in updated ==> (k in buckets && updated[k] == buckets[k]) || fresh(updated[k])
    {
      updated := buckets;
      var key := HourKey(s);
      if key !in updated {
        var acc := new RawMetricsAccumulator(key);
        updated := updated[key := acc];
        HourTotalAppend(seen, s, key, end);
      }
      updated[key].Add(s);
      assert updated.Keys == buckets.Keys + {key};
      HourTotalAppend(seen, s, key, end);
      forall k | k in updated ensures updated[k].Contents() == HourTotal(seen + [s], k, end) {
        HourTotalAppend(seen, s, k, end);
      }
    }

    method FillHours(end: nat) returns (buckets: map<Key, RawMetricsAccumulator>)
      ensures Rolled(buckets, raw, end)
      ensures forall k :: k in buckets ==> fresh(buckets[k])
    {
      buckets := map[];
      var i := 0;
      while i < |raw|
        invariant 0 <= i <= |raw|
        invariant Rolled(buckets, raw[..i], end)
        invariant forall k :: k in buckets ==> fresh(buckets[k])
      {
        assert raw[..i + 1] == raw[..i] + [raw[i]];
        if raw[i].at < end {
          buckets := AddToHour(buckets, raw[..i], raw[i], end);
        } else {
          forall k: Key ensures HourTotal(raw[..i + 1], k, end) == HourTotal(raw[..i], k, end)
                           && HourKeys(raw[..i + 1], end) == HourKeys(raw[..i], end)
          {
            HourTotalAppend(raw[..i], raw[i], k, end);
          }
        }
        i := i + 1;
      }
      assert raw[..i] == raw;
    }

    method DownsampleToHourly(now: nat, retentionDays: nat) returns (count: nat)
      requires retentionDays * DAY <= now
      modifies this`hourly
      ensures hourly == old(hourly) + HourlyRows(raw, RawCutoff(now, retentionDays))
      ensures old(HourAligned(hourly)) ==> HourAligned(hourly)
      ensures count == |HourlyRows(raw, RawCutoff(now, retentionDays))|
    {
      var end := RawCutoff(now, retentionDays);
      var buckets := FillHours(end);
      StoreHours(buckets, HourlyRows(raw, end));
      count := |buckets|;
    }

    /** Upserts every bucket; an existing row of the same key is overwritten. */
    method StoreHours(buckets: map<Key, RawMetricsAccumulator>, ghost rows: Table)
      requires buckets.Keys == rows.Keys
      requires forall k :: k in buckets ==> buckets[k].AccKey() == k && rows[k] == RowOf(buckets[k].Contents())
      modifies this`hourly
      ensures hourly == old(hourly) + rows
    {
      var left := buckets.Keys;
      while left != {}
        invariant left <= buckets.Keys
        invariant hourly.Keys == old(hourly).Keys + (buckets.Keys - left)
        invariant forall k :: k in hourly ==> hourly[k] == if k in rows && k !in left then rows[k] else old(hourly)[k]
        decreases left
      {
        var key :| key in left;
        UpsertHourly(buckets[key]);
        left := left - {key};
      }
    }

    /** The hour is added to the bucket of its day, which is created when its first hour comes. */
    method AddToDay(buckets: map<Key, HourlyMetricsAccumulator>, ghost totals: map<Key, Agg>, hour: Key, row: Metrics)
      returns (updated: map<Key, HourlyMetricsAccumulator>)
      requires DayRolled(buckets, totals)
      modifies buckets.Values
      ensures DayRolled(updated, totals[DayOf(hour) := Merge(Before(totals, DayOf(hour)), AggOf(row))])
      ensures forall k :: k in updated ==> (k in buckets && updated[k] == buckets[k]) || fresh(updated[k])
    {
      updated := buckets;
      var key := DayOf(hour);
      if key !in updated {
        var acc := new HourlyMetricsAccumulator(key);
        updated := updated[key := acc];
      }
      updated[key].Add(hour, row);
    }

    method DownsampleToDaily(now: nat, retentionDays: nat) returns (count: nat)
      requires retentionDays * DAY <= now
      requires HourAligned(hourly)
      modifies this`daily
      ensures daily == old(daily) + DailyRows(hourly, HourlyCutoff(now, retentionDays))
      ensures count == |DailyRows(hourly, HourlyCutoff(now, retentionDays))|
    {
      var end := HourlyCutoff(now, retentionDays);
      var buckets := FillDays(end);
      StoreDays(buckets, DailyRows(hourly, end));
      count := |buckets|;
    }

    method FillDays(end: nat) returns (buckets: map<Key, HourlyMetricsAccumulator>)
      requires HourAligned(hourly)
      ensures DayRolled(buckets, DayTotals(Older(hourly, end)))
      ensures forall k :: k in buckets ==> fresh(buckets[k])
    {
      buckets := map[];
      ghost var seen: Table := map[];
      var left := set hour | hour in hourly && hour.bucket < end;
      ghost var all := left;
      while left != {}
        invariant left <= all
        invariant seen.Keys == all - left && forall k :: k in seen ==> seen[k] == hourly[k]
        invariant DayRolled(buckets, DayTotals(seen))
        invariant forall k :: k in buckets ==> fresh(buckets[k])
        decreases left
      {
        var hour :| hour in left;
        OneMoreHour(seen, hour, hourly[hour]);
        buckets := AddToDay(buckets, DayTotals(seen), hour, hourly[hour]);
        left := left - {hour};
        seen := seen[hour := hourly[hour]];
      }
      assert seen == Older(hourly, end);
    }

    method UpsertDaily(acc: HourlyMetricsAccumulator)
      modifies this`daily
      ensures daily == old(daily)[acc.AccKey() := RowOf(acc.Contents())]
    {
      var row := acc.Summary();
      daily := daily[acc.AccKey() := row];
    }

    method StoreDays(buckets: map<Key, HourlyMetricsAccumulator>, ghost rows: Table)
      requires buckets.Keys == rows.Keys
      requires forall k :: k in buckets ==> buckets[k].AccKey() == k && rows[k] == RowOf(buckets[k].Contents())
      modifies this`daily
      ensures daily == old(daily) + rows
    {
      var left := buckets.Keys;
      while left != {}
        invariant left <= buckets.Keys
        invariant daily.Keys == old(daily).Keys + (buckets.Keys - left)
        invariant forall k :: k in daily ==> daily[k] == if k in rows && k !in left then rows[k] else old(daily)[k]
        decreases left
      {
        var key :| key in left;
        UpsertDaily(buckets[key]);
        left := left - {key};
      }
    }

    method PruneRaw(now: nat, retentionDays: nat)
      requires retentionDays * DAY <= now
      modifies this`raw
      ensures raw == Filter(old(raw), NotBefore(RawCutoff(now, retentionDays)))
    {
      var cutoff := RawCutoff(now, retentionDays);
      raw := Filter(raw, NotBefore(cutoff));
    }

    method PruneHourly(now: nat, retentionDays: nat)
      requires retentionDays * DAY <= now
      modifies this`hourly
      ensures hourly == NewerRows(old(hourly), HourlyCutoff(now, retentionDays))
      ensures old(HourAligned(hourly)) ==> HourAligned(hourly)
    {
      var cutoff := HourlyCutoff(now, retentionDays);
      hourly := map hour | hour in hourly && hour.bucket >= cutoff :: hourly[hour];
    }

    /** The nightly transaction: both roll-ups, then both prunes, committed together. */
    method RunRetention(now: nat, rawDays: nat, hourlyDays: nat)
      requires rawDays * DAY <= now && hourlyDays * DAY <= now
      requires HourAligned(hourly)
      modifies this
      ensures State() == Retained(old(State()), RawCutoff(now, rawDays), HourlyCutoff(now, hourlyDays))
      ensures HourAligned(hourly)
    {
      ghost var t, rawEnd, hourlyEnd := State(), RawCutoff(now, rawDays), HourlyCutoff(now, hourlyDays);
      var hours := DownsampleToHourly(now, rawDays);
      ghost var rolled := hourly;
      assert rolled == t.hourly + HourlyRows(t.raw, rawEnd);
      var days := DownsampleToDaily(now, hourlyDays);
      PruneRaw(now, rawDays);
      PruneHourly(now, hourlyDays);
      assert raw == Filter(t.raw, NotBefore(rawEnd)) && hourly == NewerRows(rolled, hourlyEnd)
          && daily == t.daily + DailyRows(rolled, hourlyEnd);
    }
  }
}
