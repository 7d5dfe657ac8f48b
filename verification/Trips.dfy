/** Rebuilding trips from the rows of a vehicle's days, and when the arrival order of rows matters. */
module Trips {
  import opened Seqs
  import opened Sorting
  import opened Tracks

  /** `time` is the instant of a stamp; `day` the number of its UTC day, 0 when it has none. */
  datatype Clock = Clock(time: string -> int, day: string -> nat)

  // ------------------------------------------------------------------ reference

  /** Rows with a recording id go together, the others by day. */
  function Key(clock: Clock, row: DayTrackRow): int {
    if row.trackInfoId > 0 then row.trackInfoId as int else 0 - clock.day(row.point.utc) as int
  }

  function PointIn(clock: Clock, key: int): DayTrackRow -> seq<TrackPoint> {
    row => if Key(clock, row) == key then [row.point] else []
  }

  function Bucket(clock: Clock, rows: seq<DayTrackRow>, key: int): seq<TrackPoint> {
    FlatMap(PointIn(clock, key), rows)
  }

  /** The keys met, each once, in the order they are met; key 0 is dropped. */
  function Keys(clock: Clock, rows: seq<DayTrackRow>): seq<int> {
    if rows == [] then []
    else
      var before, key := Keys(clock, rows[..|rows| - 1]), Key(clock, rows[|rows| - 1]);
      if key == 0 || key in before then before else before + [key]
  }

  function Instant(clock: Clock): TrackPoint -> int {
    (p: TrackPoint) => clock.time(p.utc)
  }

  /** Keep the first point of each stamp not seen yet; points without a stamp are dropped. */
  function Unique(points: seq<TrackPoint>, seen: set<string>): seq<TrackPoint> {
    if points == [] then []
    else if points[0].utc == "" || points[0].utc in seen then Unique(points[1..], seen)
    else [points[0]] + Unique(points[1..], seen + {points[0].utc})
  }

  function TripPoints(clock: Clock, points: seq<TrackPoint>): seq<TrackPoint> {
    Unique(Sort(By(Instant(clock)), points), {})
  }

  function TripsOf(clock: Clock, userId: int, key: int, points: seq<TrackPoint>): seq<Trip> {
    var unique := TripPoints(clock, points);
    if unique == [] then [] else [Trip(if key < 0 then -key else key, userId, Some(unique[0].utc), unique)]
  }

  function TripsAt(clock: Clock, userId: int, rows: seq<DayTrackRow>): int -> seq<Trip> {
    key => TripsOf(clock, userId, key, Bucket(clock, rows, key))
  }

  /** The trips in bucket order. */
  function AllTrips(clock: Clock, userId: int, rows: seq<DayTrackRow>): seq<Trip> {
    FlatMap(TripsAt(clock, userId, rows), Keys(clock, rows))
  }

  /** When a trip was created. */
  function Start(clock: Clock): Trip -> int {
    (trip: Trip) => if trip.created.None? then 0 else clock.time(trip.created.value)
  }

  function Group(clock: Clock, userId: int, rows: seq<DayTrackRow>): seq<Trip> {
    Sort(By(Start(clock)), AllTrips(clock, userId, rows))
  }

  // ------------------------------------------------------------------ a trip, instant by instant

  /** A stamp none of the points carries does not matter. */
  lemma {:induction false} UnusedStamp(points: seq<TrackPoint>, seen: set<string>, stamp: string)
    requires forall i :: 0 <= i < |points| ==> points[i].utc != stamp
    ensures Unique(points, seen + {stamp}) == Unique(points, seen)
  {
    if points != [] {
      var p := points[0];
      UnusedStamp(points[1..], seen, stamp);
      UnusedStamp(points[1..], seen + {p.utc}, stamp);
      assert (seen + {stamp}) + {p.utc} == (seen + {p.utc}) + {stamp};
    }
  }

  lemma UniqueCons(p: TrackPoint, rest: seq<TrackPoint>, seen: set<string>)
    ensures Unique([p] + rest, seen)
      == if p.utc == "" || p.utc in seen then Unique(rest, seen) else [p] + Unique(rest, seen + {p.utc})
  {
    assert ([p] + rest)[1..] == rest;
  }

  /** Dropping repeated stamps works instant by instant, because a stamp has one instant. */
  lemma {:induction false} UniqueAt(clock: Clock, points: seq<TrackPoint>, seen: set<string>, t: int)
    ensures At(Instant(clock), Unique(points, seen), t) == Unique(At(Instant(clock), points, t), seen)
  {
    if points != [] {
      var f, p, rest := Instant(clock), points[0], points[1..];
      UniqueCons(p, At(f, rest, t), seen);
      assert [] + At(f, rest, t) == At(f, rest, t);
      if p.utc == "" || p.utc in seen {
        UniqueAt(clock, rest, seen, t);
      } else {
        UniqueAt(clock, rest, seen + {p.utc}, t);
        AtCons(f, p, Unique(rest, seen + {p.utc}), t);
        if f(p) != t {
          AtElements(f, rest, t);
          UnusedStamp(At(f, rest, t), seen, p.utc);
        }
      }
    }
  }

  /** At each instant a trip shows the points of that instant in arrival order, each stamp once. */
  lemma TripAt(clock: Clock, points: seq<TrackPoint>, t: int)
    ensures At(Instant(clock), TripPoints(clock, points), t) == Unique(At(Instant(clock), points, t), {})
  {
    UniqueAt(clock, Sort(By(Instant(clock)), points), {}, t);
    SortAt(Instant(clock), points, t);
  }

  ghost predicate Stamped(points: seq<TrackPoint>) {
    forall i :: 0 <= i < |points| ==> points[i].utc != ""
  }

  /** So at each instant it shows the point that arrived first. */
  lemma TripShowsFirst(clock: Clock, points: seq<TrackPoint>, t: int)
    requires Stamped(points)
    ensures FirstAt(Instant(clock), TripPoints(clock, points), t) == FirstAt(Instant(clock), points, t)
  {
    TripAt(clock, points, t);
    AtElements(Instant(clock), points, t);
  }

  /** What arrived at each instant, each stamp once. */
  ghost predicate SameShown(clock: Clock, points: seq<TrackPoint>, other: seq<TrackPoint>) {
    forall t :: Unique(At(Instant(clock), points, t), {}) == Unique(At(Instant(clock), other, t), {})
  }

  /** Two arrival sequences give the same trip exactly when they agree on what each instant shows. */
  lemma SameTripIff(clock: Clock, points: seq<TrackPoint>, other: seq<TrackPoint>)
    ensures TripPoints(clock, points) == TripPoints(clock, other) <==> SameShown(clock, points, other)
  {
    var f, a, b := Instant(clock), TripPoints(clock, points), TripPoints(clock, other);
    forall t ensures At(f, a, t) == Unique(At(f, points, t), {}) && At(f, b, t) == Unique(At(f, other, t), {}) {
      TripAt(clock, points, t);
      TripAt(clock, other, t);
    }
    if SameShown(clock, points, other) {
      TripAscending(clock, points);
      TripAscending(clock, other);
      AscendingSameAt(f, a, b);
    }
  }

  lemma TripAscending(clock: Clock, points: seq<TrackPoint>)
    ensures Ascending(Instant(clock), TripPoints(clock, points))
  {
    SortAscending(Instant(clock), points);
    UniqueKeepsOrder(clock, Sort(By(Instant(clock)), points), {});
  }

  // ------------------------------------------------------------------ stamps of a trip

  ghost function Stamps(points: seq<TrackPoint>): set<string> {
    set i | 0 <= i < |points| :: points[i].utc
  }

  lemma StampsCons(p: TrackPoint, rest: seq<TrackPoint>)
    ensures Stamps([p] + rest) == {p.utc} + Stamps(rest)
  {
    var all := [p] + rest;
    assert all[0] == p;
    forall i | 0 <= i < |rest| ensures rest[i].utc in Stamps(all) {
      assert all[i + 1] == rest[i];
    }
  }

  lemma {:induction false} UniqueStamps(points: seq<TrackPoint>, seen: set<string>)
    ensures Stamps(Unique(points, seen)) == Stamps(points) - seen - {""}
    ensures forall i, j :: 0 <= i < j < |Unique(points, seen)| ==> Unique(points, seen)[i].utc != Unique(points, seen)[j].utc
  {
    if points != [] {
      var p, rest := points[0], points[1..];
      assert points == [p] + rest;
      StampsCons(p, rest);
      if p.utc == "" || p.utc in seen {
        UniqueStamps(rest, seen);
      } else {
        var kept := Unique(rest, seen + {p.utc});
        UniqueStamps(rest, seen + {p.utc});
        StampsCons(p, kept);
        assert forall i :: 0 <= i < |kept| ==> kept[i].utc in Stamps(kept);
      }
    }
  }

  /** A trip has every stamp of its bucket, each once. */
  lemma TripStamps(clock: Clock, points: seq<TrackPoint>)
    ensures Stamps(TripPoints(clock, points)) == Stamps(points) - {""}
    ensures |TripPoints(clock, points)| == |Stamps(points) - {""}|
  {
    var sorted, trip := Sort(By(Instant(clock)), points), TripPoints(clock, points);
    UniqueStamps(sorted, {});
    SortKeeps(By(Instant(clock)), points);
    PermutationSize(sorted, points);
    forall stamp ensures stamp in Stamps(sorted) <==> stamp in Stamps(points) {
      if i :| 0 <= i < |sorted| && sorted[i].utc == stamp {
        assert sorted[i] in Elements(points);
      }
      if i :| 0 <= i < |points| && points[i].utc == stamp {
        assert points[i] in Elements(sorted);
      }
    }
    DistinctStamps(trip);
  }

  lemma {:induction false} UniqueKeepsOrder(clock: Clock, points: seq<TrackPoint>, seen: set<string>)
    requires Ascending(Instant(clock), points)
    ensures Ascending(Instant(clock), Unique(points, seen))
    ensures forall i :: 0 <= i < |Unique(points, seen)| ==> Unique(points, seen)[i] in points
  {
    if points != [] {
      var p, rest := points[0], points[1..];
      assert forall i :: 0 <= i < |rest| ==> rest[i] == points[i + 1];
      if p.utc == "" || p.utc in seen {
        UniqueKeepsOrder(clock, rest, seen);
      } else {
        UniqueKeepsOrder(clock, rest, seen + {p.utc});
        var kept := Unique(rest, seen + {p.utc});
        forall i | 0 <= i < |kept| ensures clock.time(p.utc) <= clock.time(kept[i].utc) {
          var k :| 0 <= k < |rest| && rest[k] == kept[i];
          assert Instant(clock)(points[0]) <= Instant(clock)(points[k + 1]);
        }
      }
    }
  }

  /** The points of a trip are in time order, and the trips of a vehicle in order of their first points. */
  lemma TripsInOrder(clock: Clock, userId: int, rows: seq<DayTrackRow>, points: seq<TrackPoint>)
    ensures Ascending(Instant(clock), TripPoints(clock, points))
    ensures Ascending(Start(clock), Group(clock, userId, rows))
  {
    TripAscending(clock, points);
    SortAscending(Start(clock), AllTrips(clock, userId, rows));
  }

  lemma {:induction false} DistinctStamps(trip: seq<TrackPoint>)
    requires forall i, j :: 0 <= i < j < |trip| ==> trip[i].utc != trip[j].utc
    ensures |Stamps(trip)| == |trip|
  {
    if trip != [] {
      DistinctStamps(trip[1..]);
      StampsCons(trip[0], trip[1..]);
      assert trip == [trip[0]] + trip[1..];
      assert trip[0].utc !in Stamps(trip[1..]);
    }
  }

  // ------------------------------------------------------------------ one bucket in any order

  /** The instant of a point tells which point it is. */
  ghost predicate TimesTell(clock: Clock, points: seq<TrackPoint>) {
    forall p, q :: p in points && q in points && clock.time(p.utc) == clock.time(q.utc) ==> p == q
  }

  lemma TimesTellCanonical(clock: Clock, points: seq<TrackPoint>, other: seq<TrackPoint>)
    requires TimesTell(clock, points) && multiset(other) == multiset(points)
    ensures TripPoints(clock, other) == TripPoints(clock, points)
  {
    SortByCanonical(Instant(clock), points, other);
  }

  lemma MovedToFront(points: seq<TrackPoint>, i: nat)
    requires i < |points|
    ensures multiset([points[i]] + RemoveAt(points, i)) == multiset(points)
  {
  }

  lemma OrderShows(clock: Clock, points: seq<TrackPoint>, i: nat, j: nat)
    requires Stamped(points) && i < |points| && j < |points| && points[i] != points[j]
    requires clock.time(points[i].utc) == clock.time(points[j].utc)
    ensures TripPoints(clock, [points[i]] + RemoveAt(points, i)) != TripPoints(clock, [points[j]] + RemoveAt(points, j))
  {
    var t := clock.time(points[i].utc);
    TripShowsFirst(clock, [points[i]] + RemoveAt(points, i), t);
    TripShowsFirst(clock, [points[j]] + RemoveAt(points, j), t);
  }

  /** The arrival order of a bucket's points does not matter exactly when instants tell points apart. */
  lemma BucketOrderFree(clock: Clock, points: seq<TrackPoint>)
    requires Stamped(points)
    ensures (forall other :: multiset(other) == multiset(points) ==> TripPoints(clock, other) == TripPoints(clock, points))
      <==> TimesTell(clock, points)
  {
    if TimesTell(clock, points) {
      forall other | multiset(other) == multiset(points)
        ensures TripPoints(clock, other) == TripPoints(clock, points)
      {
        TimesTellCanonical(clock, points, other);
      }
    } else {
      var p, q :| p in points && q in points && clock.time(p.utc) == clock.time(q.utc) && p != q;
      var i :| 0 <= i < |points| && points[i] == p;
      var j :| 0 <= j < |points| && points[j] == q;
      MovedToFront(points, i);
      MovedToFront(points, j);
      OrderShows(clock, points, i, j);
    }
  }

  // ------------------------------------------------------------------ all rows in any order

  lemma {:induction false} KeysAre(clock: Clock, rows: seq<DayTrackRow>)
    ensures Distinct(Keys(clock, rows))
    ensures forall k :: k in Keys(clock, rows) <==> k != 0 && exists i :: 0 <= i < |rows| && Key(clock, rows[i]) == k
  {
    if rows != [] {
      var init := rows[..|rows| - 1];
      KeysAre(clock, init);
      assert forall i :: 0 <= i < |init| ==> init[i] == rows[i];
    }
  }

  lemma DistinctPermute<T>(a: seq<T>, b: seq<T>)
    requires Distinct(a) && Distinct(b) && forall x :: x in a <==> x in b
    ensures multiset(a) == multiset(b)
  {
    forall x ensures multiset(a)[x] == multiset(b)[x] {
      DistinctCount(a, x);
      DistinctCount(b, x);
    }
  }

  lemma {:induction false} DistinctCount<T>(a: seq<T>, x: T)
    requires Distinct(a)
    ensures multiset(a)[x] == if x in a then 1 else 0
  {
    if a != [] {
      assert a == [a[0]] + a[1..];
      assert a[0] !in a[1..];
      DistinctCount(a[1..], x);
    }
  }

  lemma KeysPermute(clock: Clock, rows: seq<DayTrackRow>, other: seq<DayTrackRow>)
    requires multiset(rows) == multiset(other)
    ensures multiset(Keys(clock, rows)) == multiset(Keys(clock, other))
  {
    KeysAre(clock, rows);
    KeysAre(clock, other);
    PermutationSize(rows, other);
    forall k ensures k in Keys(clock, rows) <==> k in Keys(clock, other) {
      if i :| 0 <= i < |rows| && Key(clock, rows[i]) == k {
        assert rows[i] in Elements(other);
      }
      if i :| 0 <= i < |other| && Key(clock, other[i]) == k {
        assert other[i] in Elements(rows);
      }
    }
    DistinctPermute(Keys(clock, rows), Keys(clock, other));
  }

  /** In every bucket, instants tell points apart. */
  ghost predicate RowTimesTell(clock: Clock, rows: seq<DayTrackRow>) {
    forall key :: TimesTell(clock, Bucket(clock, rows, key))
  }

  /** The rows give every bucket the same trip. */
  ghost predicate SameTrips(clock: Clock, rows: seq<DayTrackRow>, other: seq<DayTrackRow>) {
    forall key :: TripPoints(clock, Bucket(clock, rows, key)) == TripPoints(clock, Bucket(clock, other, key))
  }

  lemma TimesTellSameTrips(clock: Clock, rows: seq<DayTrackRow>, other: seq<DayTrackRow>)
    requires RowTimesTell(clock, rows) && multiset(rows) == multiset(other)
    ensures SameTrips(clock, rows, other)
  {
    forall key ensures TripPoints(clock, Bucket(clock, rows, key)) == TripPoints(clock, Bucket(clock, other, key)) {
      FlatMapPermutes(PointIn(clock, key), rows, other);
      TimesTellCanonical(clock, Bucket(clock, rows, key), Bucket(clock, other, key));
    }
  }

  lemma {:induction false} SameFlatMap<S, T>(f: S -> seq<T>, g: S -> seq<T>, s: seq<S>)
    requires forall i :: 0 <= i < |s| ==> f(s[i]) == g(s[i])
    ensures FlatMap(f, s) == FlatMap(g, s)
  {
    if s != [] {
      SameFlatMap(f, g, s[1..]);
    }
  }

  /** Rows that agree on every bucket's trip give the same trips. */
  lemma TripsOrderFree(clock: Clock, userId: int, rows: seq<DayTrackRow>, other: seq<DayTrackRow>)
    requires SameTrips(clock, rows, other) && multiset(rows) == multiset(other)
    ensures multiset(AllTrips(clock, userId, rows)) == multiset(AllTrips(clock, userId, other))
    ensures multiset(Group(clock, userId, rows)) == multiset(Group(clock, userId, other))
  {
    var keys := Keys(clock, other);
    KeysPermute(clock, rows, other);
    FlatMapPermutes(TripsAt(clock, userId, rows), Keys(clock, rows), keys);
    forall i | 0 <= i < |keys| ensures TripsAt(clock, userId, rows)(keys[i]) == TripsAt(clock, userId, other)(keys[i]) {
      assert TripPoints(clock, Bucket(clock, rows, keys[i])) == TripPoints(clock, Bucket(clock, other, keys[i]));
    }
    SameFlatMap(TripsAt(clock, userId, rows), TripsAt(clock, userId, other), keys);
    SortKeeps(By(Start(clock)), AllTrips(clock, userId, rows));
    SortKeeps(By(Start(clock)), AllTrips(clock, userId, other));
  }

  /** No two different trips begin at one instant. */
  ghost predicate StartsApart(clock: Clock, trips: seq<Trip>) {
    forall a, b :: a in trips && b in trips && Start(clock)(a) == Start(clock)(b) ==> a == b
  }

  lemma StartsApartCanonical(clock: Clock, userId: int, rows: seq<DayTrackRow>, other: seq<DayTrackRow>)
    requires SameTrips(clock, rows, other) && multiset(rows) == multiset(other)
    requires StartsApart(clock, AllTrips(clock, userId, rows))
    ensures Group(clock, userId, rows) == Group(clock, userId, other)
  {
    TripsOrderFree(clock, userId, rows, other);
    SortByCanonical(Start(clock), AllTrips(clock, userId, rows), AllTrips(clock, userId, other));
  }

  lemma {:induction false} KeysHead(clock: Clock, row: DayTrackRow, rest: seq<DayTrackRow>)
    requires Key(clock, row) != 0
    ensures Keys(clock, [row] + rest) != [] && Keys(clock, [row] + rest)[0] == Key(clock, row)
  {
    var all := [row] + rest;
    if rest == [] {
      assert all[..0] == [];
    } else {
      assert all[..|all| - 1] == [row] + rest[..|rest| - 1];
      KeysHead(clock, row, rest[..|rest| - 1]);
    }
  }

  lemma {:induction false} FlatMapOrigin<S, T>(f: S -> seq<T>, s: seq<S>, y: T) returns (i: nat)
    requires y in FlatMap(f, s)
    ensures i < |s| && y in f(s[i])
  {
    if y in f(s[0]) {
      i := 0;
    } else {
      var k := FlatMapOrigin(f, s[1..], y);
      i := k + 1;
    }
  }

  /** The key of a trip, and a row of its bucket. */
  lemma TripOrigin(clock: Clock, userId: int, rows: seq<DayTrackRow>, trip: Trip) returns (key: int, i: nat)
    requires trip in AllTrips(clock, userId, rows)
    ensures i < |rows| && Key(clock, rows[i]) == key && key != 0 && TripsAt(clock, userId, rows)(key) == [trip]
  {
    var k := FlatMapOrigin(TripsAt(clock, userId, rows), Keys(clock, rows), trip);
    key := Keys(clock, rows)[k];
    KeysAre(clock, rows);
    assert key in Keys(clock, rows);
    i :| 0 <= i < |rows| && Key(clock, rows[i]) == key;
  }

  /** A trip comes first among the trips when one of its rows comes first among the rows. */
  lemma BringToFront(clock: Clock, userId: int, rows: seq<DayTrackRow>, trip: Trip) returns (other: seq<DayTrackRow>)
    requires RowTimesTell(clock, rows) && trip in AllTrips(clock, userId, rows)
    ensures multiset(other) == multiset(rows)
    ensures FirstAt(Start(clock), Group(clock, userId, other), Start(clock)(trip)) == Some(trip)
  {
    var key, i := TripOrigin(clock, userId, rows, trip);
    other := [rows[i]] + RemoveAt(rows, i);
    KeysHead(clock, rows[i], RemoveAt(rows, i));
    TimesTellSameTrips(clock, rows, other);
    assert TripPoints(clock, Bucket(clock, rows, key)) == TripPoints(clock, Bucket(clock, other, key));
    FirstKeyFirst(clock, userId, other, trip);
  }

  lemma FirstKeyFirst(clock: Clock, userId: int, rows: seq<DayTrackRow>, trip: Trip)
    requires Keys(clock, rows) != [] && TripsAt(clock, userId, rows)(Keys(clock, rows)[0]) == [trip]
    ensures FirstAt(Start(clock), Group(clock, userId, rows), Start(clock)(trip)) == Some(trip)
  {
    assert AllTrips(clock, userId, rows)[0] == trip;
    SortFirstAt(Start(clock), AllTrips(clock, userId, rows), Start(clock)(trip));
  }

  /**
   With instants telling points apart, the list of trips, order included, is the same for every
   arrival order of the rows exactly when no two trips begin together.
   */
  lemma GroupOrderFree(clock: Clock, userId: int, rows: seq<DayTrackRow>)
    requires RowTimesTell(clock, rows)
    ensures (forall other :: multiset(other) == multiset(rows) ==> Group(clock, userId, other) == Group(clock, userId, rows))
      <==> StartsApart(clock, AllTrips(clock, userId, rows))
  {
    if StartsApart(clock, AllTrips(clock, userId, rows)) {
      forall other | multiset(other) == multiset(rows)
        ensures Group(clock, userId, other) == Group(clock, userId, rows)
      {
        TimesTellSameTrips(clock, rows, other);
        StartsApartCanonical(clock, userId, rows, other);
      }
    } else {
      var trips := AllTrips(clock, userId, rows);
      var a, b :| a in trips && b in trips && Start(clock)(a) == Start(clock)(b) && a != b;
      var first := BringToFront(clock, userId, rows, a);
      var second := BringToFront(clock, userId, rows, b);
      assert Group(clock, userId, first) != Group(clock, userId, second);
    }
  }
}
