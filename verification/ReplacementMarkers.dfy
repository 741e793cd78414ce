/** Markers of drive replacements: the changes of serial number along the merged series of a slot. */
module ReplacementMarkers {
  import opened Prelude
  import opened Sorting

  datatype Source = Daily | Hourly | Raw

  datatype Point = Point(timestamp: nat, source: Source, id: nat, serial: string)

  datatype Marker = Marker(timestamp: nat, previous: string, current: string)

  function Rank(s: Source): nat {
    match s
    case Daily => 0
    case Hourly => 1
    case Raw => 2
  }

  /** Series order: time, then coarser sources first, then the row id. */
  predicate Precedes(a: Point, b: Point) {
    if a.timestamp != b.timestamp then a.timestamp < b.timestamp
    else if Rank(a.source) != Rank(b.source) then Rank(a.source) < Rank(b.source)
    else a.id < b.id
  }

  function SeriesOrder(): (Point, Point) -> bool {
    (a: Point, b: Point) => Precedes(a, b)
  }

  /** A marker for every two neighbours with different serials. */
  function Changes(series: seq<Point>): seq<Marker> {
    if |series| <= 1 then [] else
      var front, last := series[..|series| - 1], series[|series| - 1];
      if front[|front| - 1].serial == last.serial then Changes(front)
      else Changes(front) + [Marker(last.timestamp, front[|front| - 1].serial, last.serial)]
  }

  /** The loop keeps only the serial it saw last. */
  method FindMarkers(points: seq<Point>) returns (markers: seq<Marker>)
    ensures markers == Changes(SortBy(points, SeriesOrder()))
  {
    markers := [];
    var series := SortBy(points, SeriesOrder());
    var previous: Option<string> := None;
    for i := 0 to |series|
      invariant markers == Changes(series[..i])
      invariant previous == if i == 0 then None else Some(series[i - 1].serial)
    {
      assert series[..i + 1][..i] == series[..i];
      var point := series[i];
      if previous.None? {
        previous := Some(point.serial);
        continue;
      }
      if previous.value == point.serial {
        continue;
      }
      markers := markers + [Marker(point.timestamp, previous.value, point.serial)];
      previous := Some(point.serial);
    }
    assert series[..|series|] == series;
  }

  // ------------------------------------------------------------- what markers tell

  predicate IsChange(series: seq<Point>, i: nat, m: Marker) {
    0 < i < |series| && series[i - 1].serial != series[i].serial
    && m == Marker(series[i].timestamp, series[i - 1].serial, series[i].serial)
  }

  /** Exactly the adjacent changes: none is invented, none is missed. */
  lemma {:induction false} MarkersAreTheChanges(series: seq<Point>, m: Marker)
    ensures m in Changes(series) <==> exists i: nat :: IsChange(series, i, m)
  {
    if |series| <= 1 {
    } else {
      var front, last := series[..|series| - 1], series[|series| - 1];
      MarkersAreTheChanges(front, m);
      forall i: nat | i < |front| ensures IsChange(front, i, m) <==> IsChange(series, i, m) {
      }
      if m in Changes(series) && m !in Changes(front) {
        assert IsChange(series, |front|, m);
      }
    }
  }

  /** Following the markers from a serial; they must fit together. */
  function Replayed(serial: string, markers: seq<Marker>): Option<string> {
    if markers == [] then Some(serial) else
      var before, last := Replayed(serial, markers[..|markers| - 1]), markers[|markers| - 1];
      if before == Some(last.previous) then Some(last.current) else None
  }

  /** Replaying the markers from the first serial of the series gives its last. */
  lemma {:induction false} MarkersReplayTheSeries(series: seq<Point>)
    requires series != []
    ensures Replayed(series[0].serial, Changes(series)) == Some(series[|series| - 1].serial)
  {
    if |series| > 1 {
      var front, last := series[..|series| - 1], series[|series| - 1];
      MarkersReplayTheSeries(front);
      assert front[0] == series[0];
      if front[|front| - 1].serial != last.serial {
        assert Changes(series)[..|Changes(front)|] == Changes(front);
      }
    } else {
      assert Changes(series) == [];
    }
  }

  /** Each marker starts from the disk the marker before it ended with. */
  lemma {:induction false} MarkersChain(series: seq<Point>, k: nat)
    requires k < |Changes(series)|
    ensures Changes(series)[k].previous == if k == 0 then series[0].serial else Changes(series)[k - 1].current
    ensures Changes(series)[k].previous != Changes(series)[k].current
  {
    var front, last := series[..|series| - 1], series[|series| - 1];
    if k < |Changes(front)| {
      MarkersChain(front, k);
      assert front[0] == series[0];
    } else {
      MarkersReplayTheSeries(front);
      assert front[0] == series[0];
      if k > 0 {
        LastReplayed(front[0].serial, Changes(front));
      }
    }
  }

  lemma LastReplayed(serial: string, markers: seq<Marker>)
    requires markers != [] && Replayed(serial, markers).Some?
    ensures Replayed(serial, markers) == Some(markers[|markers| - 1].current)
  {
  }

  /** No two points share a source and a row id. */
  predicate DistinctRows(points: seq<Point>) {
    forall i, j :: 0 <= i < j < |points| ==> points[i].source != points[j].source || points[i].id != points[j].id
  }

  lemma SeriesOrderIsStrict(points: seq<Point>)
    requires DistinctRows(points)
    ensures Transitive(SeriesOrder()) && Irreflexive(SeriesOrder()) && Comparable(points, SeriesOrder())
  {
  }

  /** The markers depend on the points alone, not on the order in which the layers delivered them. */
  lemma MarkersIgnoreTheInputOrder(a: seq<Point>, b: seq<Point>)
    requires DistinctRows(a) && DistinctRows(b) && forall p :: p in a <==> p in b
    ensures Changes(SortBy(a, SeriesOrder())) == Changes(SortBy(b, SeriesOrder()))
  {
    SeriesOrderIsStrict(a);
    SeriesOrderIsStrict(b);
    SortSorts(a, SeriesOrder());
    SortSorts(b, SeriesOrder());
    SortMembers(a, SeriesOrder());
    SortMembers(b, SeriesOrder());
    SortedIsUnique(SortBy(a, SeriesOrder()), SortBy(b, SeriesOrder()), SeriesOrder());
  }
}
