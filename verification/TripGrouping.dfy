/**
 The grouping of a vehicle's rows, told on the rows alone: one trip for each recording and one for each
 UTC day of the rows without a recording; and the loops that compute it.
 */
module TripGrouping {
  import opened Seqs
  import opened Sorting
  import opened Tracks
  import opened Trips

  // ------------------------------------------------------------------ what a trip stands for

  datatype Label = Recording(id: nat) | Day(day: nat)

  predicate Belongs(clock: Clock, row: DayTrackRow, which: Label) {
    match which
    case Recording(id) => id > 0 && row.trackInfoId == id
    case Day(day) => day > 0 && row.trackInfoId == 0 && clock.day(row.point.utc) == day
  }

  /** The points of the rows that belong to a label, as they arrived. */
  function PointsOf(clock: Clock, rows: seq<DayTrackRow>, which: Label): seq<TrackPoint> {
    FlatMap(row => if Belongs(clock, row, which) then [row.point] else [], rows)
  }

  /** Some stamped row belongs to the label. */
  ghost predicate Stands(clock: Clock, rows: seq<DayTrackRow>, which: Label) {
    exists i :: 0 <= i < |rows| && rows[i].point.utc != "" && Belongs(clock, rows[i], which)
  }

  /** A row of the label has this stamp. */
  ghost predicate StampOf(clock: Clock, rows: seq<DayTrackRow>, which: Label, stamp: string) {
    exists i :: 0 <= i < |rows| && rows[i].point.utc == stamp && Belongs(clock, rows[i], which)
  }

  /** The trip is that of the label's rows: its number, its user, and the stamps of exactly these rows in time order. */
  ghost predicate TripFor(clock: Clock, userId: int, rows: seq<DayTrackRow>, trip: Trip, which: Label) {
    && trip.trackInfoId == (match which case Recording(id) => id case Day(day) => day)
    && trip.userId == userId
    && trip.tracks == TripPoints(clock, PointsOf(clock, rows, which))
    && trip.tracks != [] && trip.created == Some(trip.tracks[0].utc)
    && (forall stamp :: stamp in Stamps(trip.tracks) <==> stamp != "" && StampOf(clock, rows, which, stamp))
    && |Stamps(trip.tracks)| == |trip.tracks|
    && forall i, j :: 0 <= i < j < |trip.tracks| ==> clock.time(trip.tracks[i].utc) <= clock.time(trip.tracks[j].utc)
  }

  /** The trips are one for each label that stands for stamped rows, and no others. */
  ghost predicate OneTripEach(clock: Clock, userId: int, rows: seq<DayTrackRow>, trips: seq<Trip>, labels: seq<Label>) {
    && |labels| == |trips| && Distinct(labels)
    && (forall k :: 0 <= k < |trips| ==> TripFor(clock, userId, rows, trips[k], labels[k]))
    && forall which :: which in labels <==> Stands(clock, rows, which)
  }

  // ------------------------------------------------------------------ labels and bucket keys

  function LabelOf(key: int): Label
    requires key != 0
  {
    if key > 0 then Recording(key) else Day(-key)
  }

  lemma BelongsIffKey(clock: Clock, row: DayTrackRow, key: int)
    requires key != 0
    ensures Belongs(clock, row, LabelOf(key)) <==> Key(clock, row) == key
  {
  }

  lemma BucketIsPoints(clock: Clock, rows: seq<DayTrackRow>, key: int)
    requires key != 0
    ensures Bucket(clock, rows, key) == PointsOf(clock, rows, LabelOf(key))
  {
    forall i | 0 <= i < |rows| ensures Belongs(clock, rows[i], LabelOf(key)) <==> Key(clock, rows[i]) == key {
      BelongsIffKey(clock, rows[i], key);
    }
    SameFlatMap(PointIn(clock, key), row => if Belongs(clock, row, LabelOf(key)) then [row.point] else [], rows);
  }

  lemma {:induction false} PointsStamps(clock: Clock, rows: seq<DayTrackRow>, which: Label, stamp: string)
    ensures stamp in Stamps(PointsOf(clock, rows, which)) <==> StampOf(clock, rows, which, stamp)
  {
    if rows != [] {
      var rest := rows[1..];
      PointsStamps(clock, rest, which, stamp);
      StampOfCons(clock, rows, which, stamp);
      if Belongs(clock, rows[0], which) {
        StampsCons(rows[0].point, PointsOf(clock, rest, which));
      } else {
        assert [] + PointsOf(clock, rest, which) == PointsOf(clock, rest, which);
      }
    }
  }

  lemma StampOfCons(clock: Clock, rows: seq<DayTrackRow>, which: Label, stamp: string)
    requires rows != []
    ensures StampOf(clock, rows, which, stamp)
      <==> (rows[0].point.utc == stamp && Belongs(clock, rows[0], which)) || StampOf(clock, rows[1..], which, stamp)
  {
    assert forall i :: 0 <= i < |rows[1..]| ==> rows[1..][i] == rows[i + 1];
    assert forall i :: 1 <= i < |rows| ==> rows[1..][i - 1] == rows[i];
  }

  // ------------------------------------------------------------------ one trip for each which

  ghost predicate Shown(clock: Clock, rows: seq<DayTrackRow>, key: int) {
    TripPoints(clock, Bucket(clock, rows, key)) != []
  }

  /** A key's trip, when its bucket shows anything. */
  function TripAtKey(clock: Clock, userId: int, rows: seq<DayTrackRow>): int -> Trip {
    key =>
      var unique := TripPoints(clock, Bucket(clock, rows, key));
      Trip(if key < 0 then -key else key, userId, if unique == [] then None else Some(unique[0].utc), unique)
  }

  /** The keys whose buckets show something, in order. */
  lemma {:induction false} ShownKeys(clock: Clock, userId: int, rows: seq<DayTrackRow>, keys: seq<int>) returns (shown: seq<int>)
    requires Distinct(keys)
    ensures Distinct(shown) && (forall k :: k in shown <==> k in keys && Shown(clock, rows, k))
    ensures FlatMap(TripsAt(clock, userId, rows), keys) == Map(TripAtKey(clock, userId, rows), shown)
  {
    if keys == [] {
      shown := [];
    } else {
      var key := keys[0];
      var rest := ShownKeys(clock, userId, rows, keys[1..]);
      assert keys == [key] + keys[1..];
      if Shown(clock, rows, key) {
        shown := [key] + rest;
        assert TripsAt(clock, userId, rows)(key) == [TripAtKey(clock, userId, rows)(key)];
        assert shown[1..] == rest;
      } else {
        shown := rest;
        assert TripsAt(clock, userId, rows)(key) == [];
      }
    }
  }

  /** A permutation of images is the image of a permutation. */
  lemma {:induction false} PermutedImages<S, T>(f: S -> T, s: seq<S>, images: seq<T>) returns (t: seq<S>)
    requires multiset(images) == multiset(Map(f, s))
    ensures multiset(t) == multiset(s) && images == Map(f, t)
  {
    PermutationSize(images, Map(f, s));
    if images == [] {
      t := [];
    } else {
      assert images[0] in Elements(Map(f, s));
      var i :| 0 <= i < |s| && Map(f, s)[i] == images[0];
      MapWithout(f, s, i);
      TailPermutes(images, Map(f, s), i);
      var rest := PermutedImages(f, RemoveAt(s, i), images[1..]);
      t := [s[i]] + rest;
      MovedFirst(s, i, rest);
      MapCons(f, s[i], rest);
      FirstAndRest(images);
    }
  }

  lemma MovedFirst<T>(s: seq<T>, i: nat, rest: seq<T>)
    requires i < |s| && multiset(rest) == multiset(RemoveAt(s, i))
    ensures multiset([s[i]] + rest) == multiset(s)
  {
  }

  lemma MapCons<S, T>(f: S -> T, x: S, rest: seq<S>)
    ensures Map(f, [x] + rest) == [f(x)] + Map(f, rest)
  {
  }

  lemma FirstAndRest<T>(s: seq<T>)
    requires s != []
    ensures s == [s[0]] + s[1..]
  {
  }

  lemma MapWithout<S, T>(f: S -> T, s: seq<S>, i: nat)
    requires i < |s|
    ensures RemoveAt(Map(f, s), i) == Map(f, RemoveAt(s, i))
  {
    var a, b := RemoveAt(Map(f, s), i), Map(f, RemoveAt(s, i));
    assert |a| == |b|;
    forall k | 0 <= k < |a| ensures a[k] == b[k] {
      assert RemoveAt(s, i)[k] == if k < i then s[k] else s[k + 1];
    }
  }

  lemma DistinctPermuted<T>(a: seq<T>, b: seq<T>)
    requires Distinct(a) && multiset(a) == multiset(b)
    ensures Distinct(b)
  {
    forall i, j | 0 <= i < j < |b| ensures b[i] != b[j] {
      DistinctCount(a, b[i]);
      if b[i] == b[j] {
        CountTwice(b, i, j);
      }
    }
  }

  lemma CountTwice<T>(b: seq<T>, i: nat, j: nat)
    requires i < j < |b| && b[i] == b[j]
    ensures multiset(b)[b[i]] >= 2
  {
    assert b == b[..j] + b[j..];
    assert b[i] in b[..j] && b[j] in b[j..];
  }

  /** The trip of a shown key is the trip of its label. */
  lemma KeyTripFits(clock: Clock, userId: int, rows: seq<DayTrackRow>, key: int)
    requires key != 0 && Shown(clock, rows, key)
    ensures TripFor(clock, userId, rows, TripAtKey(clock, userId, rows)(key), LabelOf(key))
  {
    var points, which := Bucket(clock, rows, key), LabelOf(key);
    BucketIsPoints(clock, rows, key);
    TripStamps(clock, points);
    TripAscending(clock, points);
    forall stamp ensures stamp in Stamps(TripPoints(clock, points)) <==> stamp != "" && StampOf(clock, rows, which, stamp) {
      PointsStamps(clock, rows, which, stamp);
    }
  }

  /** A bucket shows something exactly when its label stands for a stamped row. */
  lemma ShownIffStands(clock: Clock, rows: seq<DayTrackRow>, key: int)
    requires key != 0
    ensures Shown(clock, rows, key) <==> Stands(clock, rows, LabelOf(key))
  {
    var points, which := Bucket(clock, rows, key), LabelOf(key);
    BucketIsPoints(clock, rows, key);
    TripStamps(clock, points);
    if Shown(clock, rows, key) {
      var stamp := TripPoints(clock, points)[0].utc;
      assert stamp in Stamps(TripPoints(clock, points));
      PointsStamps(clock, rows, which, stamp);
    }
    if Stands(clock, rows, which) {
      var i :| 0 <= i < |rows| && rows[i].point.utc != "" && Belongs(clock, rows[i], which);
      PointsStamps(clock, rows, which, rows[i].point.utc);
      assert StampOf(clock, rows, which, rows[i].point.utc);
    }
  }

  lemma StandsHasKey(clock: Clock, rows: seq<DayTrackRow>, which: Label) returns (key: int)
    requires Stands(clock, rows, which)
    ensures key != 0 && LabelOf(key) == which && key in Keys(clock, rows)
  {
    var i :| 0 <= i < |rows| && rows[i].point.utc != "" && Belongs(clock, rows[i], which);
    key := Key(clock, rows[i]);
    KeysAre(clock, rows);
  }

  /**
   The grouped trips are one for each recording that some stamped row names and one for each UTC day
   that some stamped row without a recording falls on.
   */
  lemma GroupsAreLabels(clock: Clock, userId: int, rows: seq<DayTrackRow>) returns (labels: seq<Label>)
    ensures OneTripEach(clock, userId, rows, Group(clock, userId, rows), labels)
  {
    KeysAre(clock, rows);
    var shown := ShownKeys(clock, userId, rows, Keys(clock, rows));
    SortKeeps(By(Start(clock)), AllTrips(clock, userId, rows));
    var keys := PermutedImages(TripAtKey(clock, userId, rows), shown, Group(clock, userId, rows));
    DistinctPermuted(shown, keys);
    PermutationSize(shown, keys);
    labels := LabelsOf(keys, shown);
    LabelsFit(clock, userId, rows, keys, labels);
  }

  lemma LabelsOf(keys: seq<int>, shown: seq<int>) returns (labels: seq<Label>)
    requires Distinct(keys) && Elements(keys) == Elements(shown) && forall k :: k in shown ==> k != 0
    ensures |labels| == |keys| && Distinct(labels)
    ensures forall i :: 0 <= i < |keys| ==> keys[i] in shown && labels[i] == LabelOf(keys[i])
    ensures forall k :: k in shown ==> LabelOf(k) in labels
  {
    assert forall i :: 0 <= i < |keys| ==> keys[i] in Elements(shown);
    labels := seq(|keys|, i requires 0 <= i < |keys| => LabelOf(keys[i]));
    forall k | k in shown ensures LabelOf(k) in labels {
      assert k in Elements(keys);
      var i :| 0 <= i < |keys| && keys[i] == k;
      assert labels[i] == LabelOf(k);
    }
  }

  lemma LabelsFit(clock: Clock, userId: int, rows: seq<DayTrackRow>, keys: seq<int>, labels: seq<Label>)
    requires |labels| == |keys| && Distinct(labels)
    requires forall i :: 0 <= i < |keys| ==> keys[i] != 0 && Shown(clock, rows, keys[i]) && labels[i] == LabelOf(keys[i])
    requires forall k :: k in Keys(clock, rows) && k != 0 && Shown(clock, rows, k) ==> LabelOf(k) in labels
    ensures OneTripEach(clock, userId, rows, Map(TripAtKey(clock, userId, rows), keys), labels)
  {
    forall i | 0 <= i < |keys| ensures TripFor(clock, userId, rows, TripAtKey(clock, userId, rows)(keys[i]), labels[i]) {
      KeyTripFits(clock, userId, rows, keys[i]);
    }
    forall which ensures which in labels <==> Stands(clock, rows, which) {
      LabelStands(clock, rows, keys, labels, which);
    }
  }

  lemma LabelStands(clock: Clock, rows: seq<DayTrackRow>, keys: seq<int>, labels: seq<Label>, which: Label)
    requires |labels| == |keys|
    requires forall i :: 0 <= i < |keys| ==> keys[i] != 0 && Shown(clock, rows, keys[i]) && labels[i] == LabelOf(keys[i])
    requires forall k :: k in Keys(clock, rows) && k != 0 && Shown(clock, rows, k) ==> LabelOf(k) in labels
    ensures which in labels <==> Stands(clock, rows, which)
  {
    if which in labels {
      var i :| 0 <= i < |labels| && labels[i] == which;
      ShownIffStands(clock, rows, keys[i]);
    }
    if Stands(clock, rows, which) {
      var key := StandsHasKey(clock, rows, which);
      ShownIffStands(clock, rows, key);
    }
  }

  /** Trips begin one after the other. */
  ghost predicate BeginInOrder(clock: Clock, trips: seq<Trip>) {
    forall i, j :: 0 <= i < j < |trips| ==>
      trips[i].tracks != [] && trips[j].tracks != [] && clock.time(trips[i].tracks[0].utc) <= clock.time(trips[j].tracks[0].utc)
  }

  lemma GroupBeginsInOrder(clock: Clock, userId: int, rows: seq<DayTrackRow>, labels: seq<Label>)
    requires OneTripEach(clock, userId, rows, Group(clock, userId, rows), labels)
    ensures BeginInOrder(clock, Group(clock, userId, rows))
  {
    TripsInOrder(clock, userId, rows, []);
    var trips := Group(clock, userId, rows);
    forall i, j | 0 <= i < j < |trips|
      ensures trips[i].tracks != [] && trips[j].tracks != []
      ensures clock.time(trips[i].tracks[0].utc) <= clock.time(trips[j].tracks[0].utc)
    {
      assert TripFor(clock, userId, rows, trips[i], labels[i]) && TripFor(clock, userId, rows, trips[j], labels[j]);
      assert Start(clock)(trips[i]) <= Start(clock)(trips[j]);
    }
  }

  /** Trips in any other order are still one for each label. */
  lemma LabelsPermute(clock: Clock, userId: int, rows: seq<DayTrackRow>, trips: seq<Trip>, labels: seq<Label>, other: seq<Trip>)
    returns (relabelled: seq<Label>)
    requires OneTripEach(clock, userId, rows, trips, labels) && multiset(other) == multiset(trips)
    ensures OneTripEach(clock, userId, rows, other, relabelled)
  {
    var pairs := seq(|trips|, i requires 0 <= i < |trips| => (trips[i], labels[i]));
    assert Map((pair: (Trip, Label)) => pair.0, pairs) == trips;
    var moved := PermutedImages((pair: (Trip, Label)) => pair.0, pairs, other);
    assert Map((pair: (Trip, Label)) => pair.1, pairs) == labels;
    relabelled := Map((pair: (Trip, Label)) => pair.1, moved);
    MapPermutes((pair: (Trip, Label)) => pair.1, moved, pairs);
    DistinctPermuted(labels, relabelled);
    PermutationSize(labels, relabelled);
    PermutationSize(moved, pairs);
    forall k | 0 <= k < |other| ensures TripFor(clock, userId, rows, other[k], relabelled[k]) {
      assert moved[k] in Elements(pairs);
      var i :| 0 <= i < |pairs| && pairs[i] == moved[k];
      assert TripFor(clock, userId, rows, trips[i], labels[i]);
    }
    forall which ensures which in relabelled <==> Stands(clock, rows, which) {
      assert which in relabelled <==> which in Elements(labels);
    }
  }

  /** Both rows are among those of one trip. */
  ghost predicate ShareTrip(clock: Clock, labels: seq<Label>, a: DayTrackRow, b: DayTrackRow) {
    exists k :: 0 <= k < |labels| && Belongs(clock, a, labels[k]) && Belongs(clock, b, labels[k])
  }

  /**
   Stamped rows with recordings share a trip exactly when the recordings are the same; rows without
   share one exactly when they fall on the same UTC day; a row of each kind never share one.
   */
  lemma ShareTripIff(clock: Clock, userId: int, rows: seq<DayTrackRow>, trips: seq<Trip>, labels: seq<Label>, i: nat, j: nat)
    requires OneTripEach(clock, userId, rows, trips, labels)
    requires i < |rows| && j < |rows| && rows[i].point.utc != "" && rows[j].point.utc != ""
    ensures var a, b := rows[i], rows[j];
      ShareTrip(clock, labels, a, b)
      <==> if a.trackInfoId > 0 || b.trackInfoId > 0 then a.trackInfoId == b.trackInfoId
           else clock.day(a.point.utc) == clock.day(b.point.utc) != 0
  {
    var which := if rows[i].trackInfoId > 0 then Recording(rows[i].trackInfoId) else Day(clock.day(rows[i].point.utc));
    if Belongs(clock, rows[i], which) {
      assert Stands(clock, rows, which);
      assert which in labels;
    }
  }

  // ------------------------------------------------------------------ the loops

  /** Keys in insertion order, each with the points met so far. */
  ghost predicate Holds(clock: Clock, rows: seq<DayTrackRow>, keys: seq<int>, buckets: map<int, seq<TrackPoint>>) {
    && keys == Keys(clock, rows) && buckets.Keys == (set k | k in keys)
    && forall k :: k in buckets ==> buckets[k] == Bucket(clock, rows, k)
  }

  lemma BucketSnoc(clock: Clock, rows: seq<DayTrackRow>, row: DayTrackRow, key: int)
    ensures Bucket(clock, rows + [row], key) == Bucket(clock, rows, key) + if Key(clock, row) == key then [row.point] else []
  {
    FlatMapConcat(PointIn(clock, key), rows, [row]);
    assert FlatMap(PointIn(clock, key), [row]) == PointIn(clock, key)(row) + FlatMap(PointIn(clock, key), []);
  }

  lemma {:induction false} NoKeyNoPoints(clock: Clock, rows: seq<DayTrackRow>, key: int)
    requires key != 0 && key !in Keys(clock, rows)
    ensures Bucket(clock, rows, key) == []
  {
    if rows != [] {
      var init, row := rows[..|rows| - 1], rows[|rows| - 1];
      assert rows == init + [row];
      NoKeyNoPoints(clock, init, key);
      BucketSnoc(clock, init, row, key);
    }
  }

  lemma KeysSnoc(clock: Clock, rows: seq<DayTrackRow>, row: DayTrackRow)
    ensures Keys(clock, rows + [row])
      == if Key(clock, row) == 0 || Key(clock, row) in Keys(clock, rows) then Keys(clock, rows)
         else Keys(clock, rows) + [Key(clock, row)]
  {
    assert (rows + [row])[..|rows|] == rows;
  }

  lemma OtherBuckets(clock: Clock, rows: seq<DayTrackRow>, row: DayTrackRow, k: int)
    requires k != Key(clock, row)
    ensures Bucket(clock, rows + [row], k) == Bucket(clock, rows, k)
  {
    BucketSnoc(clock, rows, row, k);
    assert Bucket(clock, rows, k) + [] == Bucket(clock, rows, k);
  }

  /** One more row, kept in its bucket if it has one. */
  lemma HoldsSnoc(clock: Clock, rows: seq<DayTrackRow>, keys: seq<int>, buckets: map<int, seq<TrackPoint>>, row: DayTrackRow)
    requires Holds(clock, rows, keys, buckets)
    ensures var key := Key(clock, row);
      if key == 0 then Holds(clock, rows + [row], keys, buckets)
      else if key in buckets then Holds(clock, rows + [row], keys, buckets[key := buckets[key] + [row.point]])
      else Holds(clock, rows + [row], keys + [key], buckets[key := [row.point]])
  {
    if Key(clock, row) == 0 {
      HoldsSkipped(clock, rows, keys, buckets, row);
    } else if Key(clock, row) in buckets {
      HoldsKnown(clock, rows, keys, buckets, row);
    } else {
      HoldsNew(clock, rows, keys, buckets, row);
    }
  }

  lemma HoldsSkipped(clock: Clock, rows: seq<DayTrackRow>, keys: seq<int>, buckets: map<int, seq<TrackPoint>>, row: DayTrackRow)
    requires Holds(clock, rows, keys, buckets) && Key(clock, row) == 0
    ensures Holds(clock, rows + [row], keys, buckets)
  {
    KeysSnoc(clock, rows, row);
    KeysAre(clock, rows);
    forall k | k in buckets ensures Bucket(clock, rows + [row], k) == Bucket(clock, rows, k) {
      OtherBuckets(clock, rows, row, k);
    }
  }

  lemma HoldsKnown(clock: Clock, rows: seq<DayTrackRow>, keys: seq<int>, buckets: map<int, seq<TrackPoint>>, row: DayTrackRow)
    requires Holds(clock, rows, keys, buckets) && Key(clock, row) != 0 && Key(clock, row) in buckets
    ensures Holds(clock, rows + [row], keys, buckets[Key(clock, row) := buckets[Key(clock, row)] + [row.point]])
  {
    KeysSnoc(clock, rows, row);
    BucketSnoc(clock, rows, row, Key(clock, row));
    forall k | k in buckets && k != Key(clock, row) ensures Bucket(clock, rows + [row], k) == Bucket(clock, rows, k) {
      OtherBuckets(clock, rows, row, k);
    }
  }

  lemma HoldsNew(clock: Clock, rows: seq<DayTrackRow>, keys: seq<int>, buckets: map<int, seq<TrackPoint>>, row: DayTrackRow)
    requires Holds(clock, rows, keys, buckets) && Key(clock, row) != 0 && Key(clock, row) !in buckets
    ensures Holds(clock, rows + [row], keys + [Key(clock, row)], buckets[Key(clock, row) := [row.point]])
  {
    KeysSnoc(clock, rows, row);
    NoKeyNoPoints(clock, rows, Key(clock, row));
    BucketSnoc(clock, rows, row, Key(clock, row));
    assert [] + [row.point] == [row.point];
    forall k | k in buckets ensures Bucket(clock, rows + [row], k) == Bucket(clock, rows, k) {
      OtherBuckets(clock, rows, row, k);
    }
  }

  method FillBuckets(clock: Clock, rows: seq<DayTrackRow>) returns (keys: seq<int>, buckets: map<int, seq<TrackPoint>>)
    ensures Holds(clock, rows, keys, buckets)
  {
    keys, buckets := [], map[];
    for i := 0 to |rows|
      invariant Holds(clock, rows[..i], keys, buckets)
    {
      var key := Key(clock, rows[i]);
      assert rows[..i + 1] == rows[..i] + [rows[i]];
      HoldsSnoc(clock, rows[..i], keys, buckets, rows[i]);
      if key != 0 {
        if key in buckets {
          buckets := buckets[key := buckets[key] + [rows[i].point]];
        } else {
          keys := keys + [key];
          buckets := buckets[key := [rows[i].point]];
        }
      }
    }
    assert rows[..|rows|] == rows;
  }

  method KeepUnique(points: seq<TrackPoint>) returns (unique: seq<TrackPoint>)
    ensures unique == Unique(points, {})
  {
    unique := [];
    var seen: set<string> := {};
    for i := 0 to |points|
      invariant unique + Unique(points[i..], seen) == Unique(points, {})
    {
      assert points[i..][1..] == points[i + 1..];
      if points[i].utc != "" && points[i].utc !in seen {
        seen := seen + {points[i].utc};
        unique := unique + [points[i]];
      }
    }
    assert unique + [] == unique;
  }

  /** The trips of a vehicle's rows: one for each recording and one for each UTC day of the rest, in order of beginning. */
  method GroupRowsIntoTrips(clock: Clock, userId: int, rows: seq<DayTrackRow>) returns (trips: seq<Trip>)
    ensures trips == Group(clock, userId, rows) && BeginInOrder(clock, trips)
    ensures exists labels :: OneTripEach(clock, userId, rows, trips, labels)
  {
    var keys, buckets := FillBuckets(clock, rows);
    trips := [];
    for i := 0 to |keys|
      invariant trips == FlatMap(TripsAt(clock, userId, rows), keys[..i])
    {
      assert keys[..i + 1] == keys[..i] + [keys[i]];
      FlatMapConcat(TripsAt(clock, userId, rows), keys[..i], [keys[i]]);
      assert keys[i] in buckets;
      var unique := KeepUnique(Sort(By(Instant(clock)), buckets[keys[i]]));
      if |unique| > 0 {
        trips := trips + [Trip(if keys[i] < 0 then -keys[i] else keys[i], userId, Some(unique[0].utc), unique)];
      }
      TripsOfOne(clock, userId, rows, keys[i]);
    }
    assert keys[..|keys|] == keys;
    trips := Sort(By(Start(clock)), trips);
    var labels := GroupsAreLabels(clock, userId, rows);
    GroupBeginsInOrder(clock, userId, rows, labels);
  }

  lemma TripsOfOne(clock: Clock, userId: int, rows: seq<DayTrackRow>, key: int)
    ensures FlatMap(TripsAt(clock, userId, rows), [key]) == TripsOf(clock, userId, key, Bucket(clock, rows, key))
  {
    var f := TripsAt(clock, userId, rows);
    assert FlatMap(f, [key]) == f(key) + FlatMap(f, []);
  }
}
