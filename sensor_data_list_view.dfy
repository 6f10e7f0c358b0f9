/**
 * The sensor-point helpers that `SensorDataListView` and `ExperimentDetailView`
 * share (the two views carry identical copies): the points of a set in
 * ascending timestamp order, with a missing timestamp counted as
 * `Date.distantPast`, and the text for the magnetic switch.
 */
module SensorList {
  import opened Wrappers
  import opened Records

  /** A member of the `NSSet` the view is given: `allObjects` may hold
      objects of any class, of which only sensor data points are kept. */
  datatype StoredObject = PointObject(point: SensorDataPoint) | OtherObject(className: string)

  /** `compactMap { $0 as? SensorDataPoint }`. */
  function CompactMapPoints(objects: seq<StoredObject>): (points: seq<SensorDataPoint>)
    ensures |points| <= |objects|
  {
    if objects == [] then []
    else
      var rest := CompactMapPoints(objects[1..]);
      match objects[0]
      case PointObject(p) => [p] + rest
      case OtherObject(_) => rest
  }

  /** `$0.timestamp ?? Date.distantPast`, in seconds. */
  function SortKey(p: SensorDataPoint): real
  {
    p.timestamp.GetOr(DistantPast).sinceReferenceDate
  }

  predicate SortedByTimestamp(points: seq<SensorDataPoint>)
  {
    forall i, j :: 0 <= i < j < |points| ==> SortKey(points[i]) <= SortKey(points[j])
  }

  /** `p` placed into ascending `points` before the first later point. */
  function Insert(p: SensorDataPoint, points: seq<SensorDataPoint>): seq<SensorDataPoint>
  {
    if points == [] || SortKey(p) < SortKey(points[0]) then [p] + points
    else [points[0]] + Insert(p, points[1..])
  }

  /** `sorted(by: { key($0) < key($1) })`. */
  function SortByTimestamp(points: seq<SensorDataPoint>): seq<SensorDataPoint>
  {
    if points == [] then [] else Insert(points[0], SortByTimestamp(points[1..]))
  }

  /** `sortedSensorDataPoints(from:)`. */
  function SortedSensorDataPoints(objects: seq<StoredObject>): seq<SensorDataPoint>
  {
    SortByTimestamp(CompactMapPoints(objects))
  }

  /** `magneticSwitchStatus(for:)`. */
  function MagneticSwitchStatus(p: SensorDataPoint): (s: string)
    ensures s == "On" <==> p.magneticSwitch
    ensures s == "Off" <==> !p.magneticSwitch
  {
    if p.magneticSwitch then "On" else "Off"
  }

  lemma MultisetCons<T>(s: seq<T>)
    requires s != []
    ensures multiset(s) == multiset([s[0]]) + multiset(s[1..])
  {
    assert s == [s[0]] + s[1..];
  }

  /** Each point is kept as often as the set holds it, and nothing else is. */
  lemma {:induction false} CompactMapKeepsPoints(objects: seq<StoredObject>)
    ensures forall p :: multiset(CompactMapPoints(objects))[p] == multiset(objects)[PointObject(p)]
  {
    if objects != [] {
      CompactMapKeepsPoints(objects[1..]);
      MultisetCons(objects);
    }
  }

  lemma {:induction false} InsertKeepsPoints(p: SensorDataPoint, points: seq<SensorDataPoint>)
    ensures multiset(Insert(p, points)) == multiset([p]) + multiset(points)
  {
    if points != [] && SortKey(p) >= SortKey(points[0]) {
      InsertKeepsPoints(p, points[1..]);
      MultisetCons(points);
    }
  }

  /** Every point of `points` is at `bound` or later. */
  predicate NoEarlierThan(bound: real, points: seq<SensorDataPoint>)
  {
    forall i :: 0 <= i < |points| ==> bound <= SortKey(points[i])
  }

  lemma SortedCons(x: SensorDataPoint, points: seq<SensorDataPoint>)
    ensures SortedByTimestamp([x] + points) <==> NoEarlierThan(SortKey(x), points) && SortedByTimestamp(points)
  {
    var r := [x] + points;
    assert forall i :: 0 <= i < |points| ==> r[i + 1] == points[i];
    if NoEarlierThan(SortKey(x), points) && SortedByTimestamp(points) {
      forall i, j | 0 <= i < j < |r| ensures SortKey(r[i]) <= SortKey(r[j]) {
        if i > 0 { assert r[i] == points[i - 1]; }
        assert r[j] == points[j - 1];
      }
    }
    if SortedByTimestamp(r) {
      forall i | 0 <= i < |points| ensures SortKey(x) <= SortKey(points[i]) {
        assert r[0] == x && r[i + 1] == points[i];
      }
      forall i, j | 0 <= i < j < |points| ensures SortKey(points[i]) <= SortKey(points[j]) {
        assert r[i + 1] == points[i] && r[j + 1] == points[j];
      }
    }
  }

  lemma {:induction false} InsertNoEarlierThan(bound: real, p: SensorDataPoint, points: seq<SensorDataPoint>)
    requires NoEarlierThan(bound, points) && bound <= SortKey(p)
    ensures NoEarlierThan(bound, Insert(p, points))
  {
    if points != [] && SortKey(p) >= SortKey(points[0]) {
      var tail := points[1..];
      assert forall i :: 0 <= i < |tail| ==> tail[i] == points[i + 1];
      InsertNoEarlierThan(bound, p, tail);
      var r := Insert(p, points);
      assert r == [points[0]] + Insert(p, tail);
      assert forall i :: 1 <= i < |r| ==> r[i] == Insert(p, tail)[i - 1];
    } else {
      var r := [p] + points;
      assert forall i :: 1 <= i < |r| ==> r[i] == points[i - 1];
    }
  }

  lemma {:induction false} InsertKeepsOrder(p: SensorDataPoint, points: seq<SensorDataPoint>)
    requires SortedByTimestamp(points)
    ensures SortedByTimestamp(Insert(p, points))
  {
    if points == [] {
      SortedCons(p, []);
    } else {
      var tail := points[1..];
      assert points == [points[0]] + tail;
      SortedCons(points[0], tail);
      if SortKey(p) < SortKey(points[0]) {
        assert NoEarlierThan(SortKey(p), points);
        SortedCons(p, points);
      } else {
        InsertKeepsOrder(p, tail);
        InsertNoEarlierThan(SortKey(points[0]), p, tail);
        SortedCons(points[0], Insert(p, tail));
      }
    }
  }

  /** The sort is ascending in timestamp, a missing one counting as the
      earliest date ... */
  lemma {:induction false} SortByTimestampSorted(points: seq<SensorDataPoint>)
    ensures SortedByTimestamp(SortByTimestamp(points))
  {
    if points != [] {
      SortByTimestampSorted(points[1..]);
      InsertKeepsOrder(points[0], SortByTimestamp(points[1..]));
    }
  }

  /** ... and a permutation of its input. */
  lemma {:induction false} SortByTimestampPermutes(points: seq<SensorDataPoint>)
    ensures multiset(SortByTimestamp(points)) == multiset(points)
  {
    if points != [] {
      SortByTimestampPermutes(points[1..]);
      InsertKeepsPoints(points[0], SortByTimestamp(points[1..]));
      MultisetCons(points);
    }
  }

  /** The view's list: ascending by timestamp, and holding every sensor data
      point of the set exactly as often as the set does, and nothing else. */
  lemma SortedSensorDataPointsSpec(objects: seq<StoredObject>)
    ensures SortedByTimestamp(SortedSensorDataPoints(objects))
    ensures forall p :: multiset(SortedSensorDataPoints(objects))[p] == multiset(objects)[PointObject(p)]
  {
    var points := CompactMapPoints(objects);
    SortByTimestampSorted(points);
    SortByTimestampPermutes(points);
    CompactMapKeepsPoints(objects);
  }
}
