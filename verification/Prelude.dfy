/** Shared vocabulary: optional values, and the hour and day buckets of UTC time. */
module Prelude {

  datatype Option<+T> = None | Some(value: T)

  function Max(x: int, y: int): int {
    if x >= y then x else y
  }

  function Min(x: int, y: int): int {
    if x <= y then x else y
  }

  // Instants are whole seconds counted from a UTC midnight. Sub-second parts never decide
  // anything here, because every cutoff is itself a bucket boundary.
  const HOUR: nat := 3600
  const DAY: nat := 86400
  const HOURS_PER_DAY: nat := 24

  function HourBucket(t: nat): (b: nat)
    ensures b <= t < b + HOUR && b % HOUR == 0
  {
    t - t % HOUR
  }

  function DayBucket(t: nat): (b: nat)
    ensures b <= t < b + DAY && b % DAY == 0
  {
    t - t % DAY
  }

  /** An aligned boundary never cuts a bucket in two. */
  lemma HourBelowBoundary(t: nat, boundary: nat)
    requires boundary % HOUR == 0
    ensures t < boundary <==> HourBucket(t) < boundary
    ensures HourBucket(t) < boundary ==> HourBucket(t) + HOUR <= boundary
  {
    var b := HourBucket(t);
    assert (boundary - b) % HOUR == 0;
  }

  lemma DayBelowBoundary(t: nat, boundary: nat)
    requires boundary % DAY == 0
    ensures t < boundary <==> DayBucket(t) < boundary
    ensures DayBucket(t) < boundary ==> DayBucket(t) + DAY <= boundary
  {
    var b := DayBucket(t);
    assert (boundary - b) % DAY == 0;
  }

  lemma DayBoundaryIsHourBoundary(boundary: nat)
    requires boundary % DAY == 0
    ensures boundary % HOUR == 0
  {
    assert boundary == (boundary / DAY) * 24 * HOUR;
  }

  /** The day of an instant is the day of its hour. */
  lemma DayOfHour(t: nat)
    ensures DayBucket(HourBucket(t)) == DayBucket(t)
  {
    var d := DayBucket(t);
    DayBoundaryIsHourBoundary(d);
    DayBoundaryIsHourBoundary(d + DAY);
    HourBelowBoundary(t, d);
    HourBelowBoundary(t, d + DAY);
    DayBelowBoundary(HourBucket(t), d);
    DayBelowBoundary(HourBucket(t), d + DAY);
    assert d <= HourBucket(t) < d + DAY;
    assert (DayBucket(HourBucket(t)) - d) % DAY == 0;
  }
}
