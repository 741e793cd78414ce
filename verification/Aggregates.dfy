/**
 * What a set of drive samples adds up to, independently of how it is stored.
 * `Total` is the reference every layer of the retention job is measured against.
 */
module Aggregates {
  import opened Prelude
  import opened Sequences

  /** One drive of one controller snapshot, joined with the snapshot's capture time. */
  datatype Sample = Sample(
    at: nat, enclosure: int, slot: int, serial: string,
    temperature: Option<int>, media: int, other: int, predictive: int)

  /** The unique key of a metrics table: bucket start, position and disk identity. */
  datatype Key = Key(bucket: nat, enclosure: int, slot: int, serial: string)

  function HourKey(s: Sample): Key {
    Key(HourBucket(s.at), s.enclosure, s.slot, s.serial)
  }

  function DayKey(s: Sample): Key {
    Key(DayBucket(s.at), s.enclosure, s.slot, s.serial)
  }

  /** The key of the day that an hour belongs to. */
  function DayOf(hour: Key): Key {
    hour.(bucket := DayBucket(hour.bucket))
  }

  lemma DayOfHourKey(s: Sample)
    ensures DayOf(HourKey(s)) == DayKey(s)
  {
    DayOfHour(s.at);
  }

  datatype Agg = Agg(
    samples: nat, media: int, other: int, predictive: int,
    tempCount: nat, tempSum: real, tempMin: Option<int>, tempMax: Option<int>)
  {
    /** Temperature fields agree on whether there was any reading. */
    predicate WellFormed() {
      && (tempCount == 0 <==> tempMin.None?)
      && (tempCount == 0 <==> tempMax.None?)
      && (tempCount == 0 ==> tempSum == 0.0)
    }
  }

  // Error maxima start from zero, as the accumulators do.
  const NOTHING: Agg := Agg(0, 0, 0, 0, 0, 0.0, None, None)

  function OptMin(a: Option<int>, b: Option<int>): Option<int> {
    if a.None? then b else if b.None? then a else Some(Min(a.value, b.value))
  }

  function OptMax(a: Option<int>, b: Option<int>): Option<int> {
    if a.None? then b else if b.None? then a else Some(Max(a.value, b.value))
  }

  function Merge(a: Agg, b: Agg): Agg {
    Agg(a.samples + b.samples, Max(a.media, b.media), Max(a.other, b.other),
        Max(a.predictive, b.predictive), a.tempCount + b.tempCount, a.tempSum + b.tempSum,
        OptMin(a.tempMin, b.tempMin), OptMax(a.tempMax, b.tempMax))
  }

  /** A part can be merged into either half of a split. */
  lemma MergeElsewhere(a: Agg, b: Agg, c: Agg)
    ensures Merge(Merge(a, b), c) == Merge(Merge(a, c), b)
    ensures Merge(Merge(a, b), c) == Merge(a, Merge(b, c))
  {
  }

  function OfSample(s: Sample): Agg {
    Agg(1, Max(0, s.media), Max(0, s.other), Max(0, s.predictive),
        if s.temperature.Some? then 1 else 0, if s.temperature.Some? then s.temperature.value as real else 0.0,
        s.temperature, s.temperature)
  }

  function Both(p: Sample -> bool, q: Sample -> bool): Sample -> bool {
    s => p(s) && q(s)
  }

  function ButNot(p: Sample -> bool, q: Sample -> bool): Sample -> bool {
    s => p(s) && !q(s)
  }

  /** The aggregate of the samples selected by `p`. */
  ghost function Total(log: seq<Sample>, p: Sample -> bool): (a: Agg)
    ensures a.WellFormed() && a.media >= 0 && a.other >= 0 && a.predictive >= 0
  {
    if log == [] then NOTHING else
      var rest := Total(log[..|log| - 1], p);
      var last := log[|log| - 1];
      if p(last) then Merge(rest, OfSample(last)) else rest
  }

  lemma TotalAppend(log: seq<Sample>, s: Sample, p: Sample -> bool)
    ensures Total(log + [s], p) == if p(s) then Merge(Total(log, p), OfSample(s)) else Total(log, p)
  {
  }

  /** Only the answers of `p` on the samples present matter. */
  lemma {:induction false} TotalSame(log: seq<Sample>, p: Sample -> bool, q: Sample -> bool)
    requires forall s :: s in log ==> p(s) == q(s)
    ensures Total(log, p) == Total(log, q)
  {
    if log == [] {
    } else {
      TotalSame(log[..|log| - 1], p, q);
    }
  }

  /** Selecting first and aggregating later is the same as aggregating both conditions. */
  lemma {:induction false} TotalOfSelection(log: seq<Sample>, f: Sample -> bool, p: Sample -> bool)
    ensures Total(Filter(log, f), p) == Total(log, Both(f, p))
  {
    if log == [] {
    } else {
      var front, last := log[..|log| - 1], log[|log| - 1];
      TotalOfSelection(front, f, p);
      if f(last) {
        TotalAppend(Filter(front, f), last, p);
      }
    }
  }

  /** Splitting the samples in two splits the aggregate: nothing counted twice or lost. */
  lemma {:induction false} TotalSplit(log: seq<Sample>, p: Sample -> bool, f: Sample -> bool)
    ensures Total(log, p) == Merge(Total(log, Both(p, f)), Total(log, ButNot(p, f)))
  {
    if log == [] {
      assert Total(log, p) == NOTHING;
    } else {
      var front, last := log[..|log| - 1], log[|log| - 1];
      assert log == front + [last];
      TotalSplit(front, p, f);
      TotalAppend(front, last, p);
      TotalAppend(front, last, Both(p, f));
      TotalAppend(front, last, ButNot(p, f));
      MergeElsewhere(Total(front, Both(p, f)), Total(front, ButNot(p, f)), OfSample(last));
    }
  }

  lemma {:induction false} TotalOfNone(log: seq<Sample>, p: Sample -> bool)
    requires forall s :: s in log ==> !p(s)
    ensures Total(log, p) == NOTHING
  {
    if log == [] {
    } else {
      TotalOfNone(log[..|log| - 1], p);
    }
  }

  lemma {:induction false} SelectTwice(log: seq<Sample>, f: Sample -> bool, g: Sample -> bool)
    ensures Filter(Filter(log, f), g) == Filter(log, Both(f, g))
  {
    if log == [] {
    } else {
      var front, last := log[..|log| - 1], log[|log| - 1];
      SelectTwice(front, f, g);
      if f(last) {
        assert (Filter(front, f) + [last])[..|Filter(front, f)|] == Filter(front, f);
      }
    }
  }

  lemma {:induction false} SelectSame(log: seq<Sample>, p: Sample -> bool, q: Sample -> bool)
    requires forall s :: s in log ==> p(s) == q(s)
    ensures Filter(log, p) == Filter(log, q)
  {
    if log == [] {
    } else {
      SelectSame(log[..|log| - 1], p, q);
    }
  }

  /** The counts of a total are the lengths of the selected samples and readings. */
  lemma {:induction false} TotalCounts(log: seq<Sample>, p: Sample -> bool)
    ensures Total(log, p).samples == |Filter(log, p)|
    ensures Total(log, p).tempCount == |Filter(log, s => p(s) && s.temperature.Some?)|
  {
    if log == [] {
    } else {
      TotalCounts(log[..|log| - 1], p);
    }
  }

  /** Every selected counter and reading lies within the extremes of the total. */
  lemma {:induction false} TotalBounds(log: seq<Sample>, p: Sample -> bool, s: Sample)
    requires s in log && p(s)
    ensures var a := Total(log, p);
      && s.media <= a.media && s.other <= a.other && s.predictive <= a.predictive
      && (s.temperature.Some? ==>
            a.tempMin.Some? && a.tempMax.Some? && a.tempMin.value <= s.temperature.value <= a.tempMax.value)
  {
    var front, last := log[..|log| - 1], log[|log| - 1];
    if s in front {
      TotalBounds(front, p, s);
    } else {
      assert s == last;
    }
  }

  datatype Field = MediaField | OtherField | PredictiveField | TemperatureField

  function Read(s: Sample, field: Field): Option<int> {
    match field
    case MediaField => Some(s.media)
    case OtherField => Some(s.other)
    case PredictiveField => Some(s.predictive)
    case TemperatureField => s.temperature
  }

  ghost predicate Occurs(log: seq<Sample>, p: Sample -> bool, field: Field, value: int) {
    exists s :: s in log && p(s) && Read(s, field) == Some(value)
  }

  lemma OccursLater(log: seq<Sample>, last: Sample, p: Sample -> bool, field: Field, value: int)
    ensures Occurs(log, p, field, value) ==> Occurs(log + [last], p, field, value)
    ensures p(last) && Read(last, field) == Some(value) ==> Occurs(log + [last], p, field, value)
  {
  }

  /** The extremes of a total are not just bounds: each one is some sample's value (or zero). */
  lemma {:induction false} TotalAttained(log: seq<Sample>, p: Sample -> bool)
    ensures var a := Total(log, p);
      && (a.media == 0 || Occurs(log, p, MediaField, a.media))
      && (a.other == 0 || Occurs(log, p, OtherField, a.other))
      && (a.predictive == 0 || Occurs(log, p, PredictiveField, a.predictive))
      && (a.tempMin.Some? ==> Occurs(log, p, TemperatureField, a.tempMin.value))
      && (a.tempMax.Some? ==> Occurs(log, p, TemperatureField, a.tempMax.value))
  {
    if log == [] {
    } else {
      var front, last, a := log[..|log| - 1], log[|log| - 1], Total(log, p);
      assert log == front + [last];
      TotalAttained(front, p);
      OccursLater(front, last, p, MediaField, a.media);
      OccursLater(front, last, p, OtherField, a.other);
      OccursLater(front, last, p, PredictiveField, a.predictive);
      if a.tempMin.Some? {
        OccursLater(front, last, p, TemperatureField, a.tempMin.value);
        OccursLater(front, last, p, TemperatureField, a.tempMax.value);
      }
    }
  }
}
