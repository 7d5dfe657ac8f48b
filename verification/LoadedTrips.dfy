/**
 From fetched days to trips: the loader delivers a vehicle's days whole, in whatever order they
 settle, and when that order shows in the trips is settled exactly.
 */
module LoadedTrips {
  import opened Seqs
  import opened Sorting
  import opened Tracks
  import opened Trips
  import opened BoundedCache
  import opened UserDays
  import opened DayLoader
  import opened DayLoaderProofs
  import opened DayOrders
  import opened TripGrouping
  import opened DayAnswer

  // ------------------------------------------------------------------ sequences in which stamps are dropped

  /** Each stamp once. */
  function Once(points: seq<TrackPoint>): seq<TrackPoint> {
    Unique(points, {})
  }

  /** The points whose stamp is not in `seen`. */
  function Unseen(points: seq<TrackPoint>, seen: set<string>): seq<TrackPoint> {
    if points == [] then []
    else (if points[0].utc in seen then [] else [points[0]]) + Unseen(points[1..], seen)
  }

  lemma UnseenCons(p: TrackPoint, rest: seq<TrackPoint>, seen: set<string>)
    ensures Unseen([p] + rest, seen) == (if p.utc in seen then [] else [p]) + Unseen(rest, seen)
  {
    assert ([p] + rest)[1..] == rest;
  }

  /** Points seen before only take themselves away. */
  lemma {:induction false} UniqueIsUnseen(points: seq<TrackPoint>, before: set<string>, more: set<string>)
    ensures Unique(points, before + more) == Unseen(Unique(points, before), more)
  {
    if points != [] {
      var p, rest := points[0], points[1..];
      UniqueIsUnseen(rest, before, more);
      UniqueIsUnseen(rest, before + {p.utc}, more);
      assert (before + {p.utc}) + more == (before + more) + {p.utc};
      if p.utc != "" && p.utc !in before {
        UnseenCons(p, Unique(rest, before + {p.utc}), more);
        if p.utc in more {
          assert (before + more) + {p.utc} == before + more;
        }
      }
    }
  }

  lemma ConcatCons<T>(x: T, rest: seq<T>, b: seq<T>)
    ensures ([x] + rest) + b == [x] + (rest + b)
  {
  }

  lemma {:induction false} UniqueConcat(a: seq<TrackPoint>, b: seq<TrackPoint>, seen: set<string>)
    ensures Unique(a + b, seen) == Unique(a, seen) + Unique(b, seen + Stamps(a))
  {
    if a == [] {
      assert a + b == b && seen + Stamps(a) == seen;
    } else {
      var p, rest := a[0], a[1..];
      assert a == [p] + rest;
      ConcatCons(p, rest, b);
      StampsCons(p, rest);
      UniqueCons(p, rest + b, seen);
      UniqueCons(p, rest, seen);
      if p.utc == "" || p.utc in seen {
        UniqueConcat(rest, b, seen);
        BlankStamp(b, seen + Stamps(rest), p.utc);
        assert seen + Stamps(a) == (seen + Stamps(rest)) + {p.utc};
      } else {
        UniqueConcat(rest, b, seen + {p.utc});
        assert (seen + {p.utc}) + Stamps(rest) == seen + Stamps(a);
        ConcatAssoc([p], Unique(rest, seen + {p.utc}), Unique(b, seen + Stamps(a)));
      }
    }
  }

  lemma {:induction false} BlankStamp(points: seq<TrackPoint>, seen: set<string>, stamp: string)
    requires stamp == "" || stamp in seen
    ensures Unique(points, seen + {stamp}) == Unique(points, seen)
  {
    if stamp in seen {
      assert seen + {stamp} == seen;
    } else if points != [] {
      BlankStamp(points[1..], seen, stamp);
      BlankStamp(points[1..], seen + {points[0].utc}, stamp);
      assert (seen + {stamp}) + {points[0].utc} == (seen + {points[0].utc}) + {stamp};
    }
  }

  lemma OnceConcat(a: seq<TrackPoint>, b: seq<TrackPoint>)
    ensures Once(a + b) == Once(a) + Unseen(Once(b), Stamps(a))
  {
    UniqueConcat(a, b, {});
    UniqueIsUnseen(b, {}, Stamps(a));
    assert {} + Stamps(a) == Stamps(a);
  }

  lemma {:induction false} UnseenConcat(a: seq<TrackPoint>, b: seq<TrackPoint>, seen: set<string>)
    ensures Unseen(a + b, seen) == Unseen(a, seen) + Unseen(b, seen)
  {
    if a == [] {
      assert a + b == b;
    } else {
      assert (a + b)[1..] == a[1..] + b;
      UnseenConcat(a[1..], b, seen);
    }
  }

  lemma {:induction false} UnseenNone(points: seq<TrackPoint>, seen: set<string>)
    requires forall i :: 0 <= i < |points| ==> points[i].utc in seen
    ensures Unseen(points, seen) == []
  {
    if points != [] {
      UnseenNone(points[1..], seen);
    }
  }

  lemma {:induction false} UnseenAll(points: seq<TrackPoint>, seen: set<string>)
    requires forall i :: 0 <= i < |points| ==> points[i].utc !in seen
    ensures Unseen(points, seen) == points
  {
    if points != [] {
      UnseenAll(points[1..], seen);
      assert points == [points[0]] + points[1..];
    }
  }

  // ------------------------------------------------------------------ two parts in either order

  /** Of two parts, one only continues what the other shows. */
  predicate Continue(a: seq<TrackPoint>, b: seq<TrackPoint>) {
    Once(a) <= Once(b) || Once(b) <= Once(a)
  }

  function Longer(a: seq<TrackPoint>, b: seq<TrackPoint>): seq<TrackPoint> {
    if |a| >= |b| then a else b
  }

  lemma OnceStamps(points: seq<TrackPoint>)
    ensures Stamps(Once(points)) == Stamps(points) - {""}
    ensures forall i, j :: 0 <= i < j < |Once(points)| ==> Once(points)[i].utc != Once(points)[j].utc
  {
    UniqueStamps(points, {});
    assert Stamps(points) - {} - {""} == Stamps(points) - {""};
  }

  lemma OnceMember(points: seq<TrackPoint>, i: nat)
    requires i < |Once(points)|
    ensures Once(points)[i].utc in Stamps(points) && Once(points)[i].utc != ""
  {
    OnceStamps(points);
    assert Once(points)[i].utc in Stamps(Once(points));
  }

  /** Continuing parts show, in either order, the longer of the two. */
  lemma ContinueConcat(a: seq<TrackPoint>, b: seq<TrackPoint>)
    requires Continue(a, b)
    ensures Once(a + b) == Longer(Once(a), Once(b))
  {
    OnceConcat(a, b);
    var u, v := Once(a), Once(b);
    if v <= u {
      forall i | 0 <= i < |v| ensures v[i].utc in Stamps(a) {
        OnceMember(a, i);
      }
      UnseenNone(v, Stamps(a));
    } else {
      var rest := v[|u|..];
      assert v == u + rest;
      UnseenConcat(u, rest, Stamps(a));
      forall i | 0 <= i < |u| ensures u[i].utc in Stamps(a) {
        OnceMember(a, i);
      }
      UnseenNone(u, Stamps(a));
      forall i | 0 <= i < |rest| ensures rest[i].utc !in Stamps(a) {
        RestIsNew(a, b, i);
      }
      UnseenAll(rest, Stamps(a));
    }
  }

  lemma RestIsNew(a: seq<TrackPoint>, b: seq<TrackPoint>, i: nat)
    requires Once(a) <= Once(b) && i < |Once(b)| - |Once(a)|
    ensures Once(b)[|Once(a)|..][i].utc !in Stamps(a)
  {
    var u, v := Once(a), Once(b);
    OnceStamps(a);
    OnceStamps(b);
    OnceMember(b, |u| + i);
    assert v[|u|..][i] == v[|u| + i];
    forall k | 0 <= k < |u| ensures u[k].utc != v[|u| + i].utc {
      assert u[k] == v[k];
    }
    var stamp := v[|u| + i].utc;
    assert stamp !in Stamps(u) && stamp != "" && Stamps(u) == Stamps(a) - {""};
  }

  /** What a part shows stays in front, whatever follows. */
  lemma FirstStays(a: seq<TrackPoint>, rest: seq<TrackPoint>)
    ensures Once(a) <= Once(a + rest)
  {
    OnceConcat(a, rest);
  }

  lemma PrefixesCompare<T>(whole: seq<T>, a: seq<T>, b: seq<T>)
    requires a <= whole && b <= whole
    ensures a <= b || b <= a
  {
    if |a| <= |b| {
      assert a == whole[..|a|] && b == whole[..|b|];
      assert a == b[..|a|];
    } else {
      assert b == a[..|b|];
    }
  }

  // ------------------------------------------------------------------ any number of parts

  ghost predicate AllContinue(parts: seq<seq<TrackPoint>>) {
    forall i, j :: 0 <= i < |parts| && 0 <= j < |parts| ==> Continue(parts[i], parts[j])
  }

  /** Together, continuing parts show what the longest of them shows. */
  lemma {:induction false} LongestShown(parts: seq<seq<TrackPoint>>)
    requires AllContinue(parts)
    ensures forall i :: 0 <= i < |parts| ==> Once(parts[i]) <= Once(Flatten(parts))
    ensures parts != [] ==> exists i :: 0 <= i < |parts| && Once(parts[i]) == Once(Flatten(parts))
  {
    if |parts| > 0 {
      var head, tail := parts[0], parts[1..];
      assert forall i :: 0 <= i < |tail| ==> tail[i] == parts[i + 1];
      LongestShown(tail);
      if tail == [] {
        assert Flatten(parts) == head + Flatten<TrackPoint>([]) == head;
      } else {
        var k :| 0 <= k < |tail| && Once(tail[k]) == Once(Flatten(tail));
        assert Continue(parts[0], parts[k + 1]);
        ContinueConcat(head, Flatten(tail));
        forall i | 0 <= i < |parts| ensures Once(parts[i]) <= Once(Flatten(parts)) {
          if i > 0 {
            assert Once(tail[i - 1]) <= Once(Flatten(tail));
          }
        }
        assert Once(Flatten(parts)) == Once(parts[0]) || Once(Flatten(parts)) == Once(parts[k + 1]);
      }
    }
  }

  /** So their order does not show. */
  lemma PartsOrderFree(parts: seq<seq<TrackPoint>>, other: seq<seq<TrackPoint>>)
    requires AllContinue(parts) && multiset(parts) == multiset(other)
    ensures Once(Flatten(parts)) == Once(Flatten(other))
  {
    PermutationSize(parts, other);
    SameParts(parts, other);
    LongestShown(parts);
    LongestShown(other);
    if parts != [] {
      var i :| 0 <= i < |parts| && Once(parts[i]) == Once(Flatten(parts));
      var j :| 0 <= j < |other| && Once(other[j]) == Once(Flatten(other));
      var i' := PartIn(parts, other, i);
      var j' := PartIn(other, parts, j);
      assert Once(other[i']) <= Once(Flatten(other)) && Once(parts[j']) <= Once(Flatten(parts));
    }
  }

  lemma PartIn(parts: seq<seq<TrackPoint>>, other: seq<seq<TrackPoint>>, i: nat) returns (j: nat)
    requires multiset(parts) == multiset(other) && i < |parts|
    ensures j < |other| && other[j] == parts[i]
  {
    PermutationSize(parts, other);
    assert parts[i] in Elements(other);
    j :| 0 <= j < |other| && other[j] == parts[i];
  }

  lemma SameParts(parts: seq<seq<TrackPoint>>, other: seq<seq<TrackPoint>>)
    requires AllContinue(parts) && multiset(parts) == multiset(other)
    ensures AllContinue(other)
  {
    forall i, j | 0 <= i < |other| && 0 <= j < |other| ensures Continue(other[i], other[j]) {
      var i' := PartIn(other, parts, i);
      var j' := PartIn(other, parts, j);
      assert Continue(parts[i'], parts[j']);
    }
  }

  // ------------------------------------------------------------------ days as parts

  /** What a day contributes to a bucket at an instant. */
  function Share(clock: Clock, key: int, t: int): seq<DayTrackRow> -> seq<TrackPoint> {
    (day: seq<DayTrackRow>) => At(Instant(clock), Bucket(clock, day, key), t)
  }

  /** At every instant of every bucket, of two days one only continues what the other shows. */
  ghost predicate DaysContinue(clock: Clock, a: seq<DayTrackRow>, b: seq<DayTrackRow>) {
    forall key, t :: Continue(Share(clock, key, t)(a), Share(clock, key, t)(b))
  }

  ghost predicate DaysAgree(clock: Clock, days: seq<seq<DayTrackRow>>) {
    forall i, j :: 0 <= i < |days| && 0 <= j < |days| && i != j ==> DaysContinue(clock, days[i], days[j])
  }

  /** The rows of consecutive days contribute the shares of the days, one after the other. */
  lemma {:induction false} ShareOfDays(clock: Clock, key: int, t: int, days: seq<seq<DayTrackRow>>)
    ensures Share(clock, key, t)(Flatten(days)) == Flatten(Map(Share(clock, key, t), days))
  {
    if days != [] {
      ShareOfDays(clock, key, t, days[1..]);
      FlatMapConcat(PointIn(clock, key), days[0], Flatten(days[1..]));
      AtConcat(Instant(clock), Bucket(clock, days[0], key), Bucket(clock, Flatten(days[1..]), key), t);
    }
  }

  lemma SharesContinue(clock: Clock, key: int, t: int, days: seq<seq<DayTrackRow>>)
    requires DaysAgree(clock, days)
    ensures AllContinue(Map(Share(clock, key, t), days))
  {
    var parts := Map(Share(clock, key, t), days);
    forall i, j | 0 <= i < |parts| && 0 <= j < |parts| ensures Continue(parts[i], parts[j]) {
      if i != j {
        assert DaysContinue(clock, days[i], days[j]);
      }
    }
  }

  lemma SameShareInAnyOrder(clock: Clock, key: int, t: int, days: seq<seq<DayTrackRow>>, other: seq<seq<DayTrackRow>>)
    requires DaysAgree(clock, days) && multiset(days) == multiset(other)
    ensures Once(Share(clock, key, t)(Flatten(days))) == Once(Share(clock, key, t)(Flatten(other)))
  {
    ShareOfDays(clock, key, t, days);
    ShareOfDays(clock, key, t, other);
    SharesContinue(clock, key, t, days);
    MapPermutes(Share(clock, key, t), days, other);
    PartsOrderFree(Map(Share(clock, key, t), days), Map(Share(clock, key, t), other));
  }

  /** Days that agree give every bucket the same trip in any order. */
  lemma DaysOrderFree(clock: Clock, days: seq<seq<DayTrackRow>>, other: seq<seq<DayTrackRow>>)
    requires DaysAgree(clock, days) && multiset(days) == multiset(other)
    ensures SameTrips(clock, Flatten(days), Flatten(other))
  {
    forall key ensures TripPoints(clock, Bucket(clock, Flatten(days), key)) == TripPoints(clock, Bucket(clock, Flatten(other), key)) {
      var a, b := Bucket(clock, Flatten(days), key), Bucket(clock, Flatten(other), key);
      forall t ensures Unique(At(Instant(clock), a, t), {}) == Unique(At(Instant(clock), b, t), {}) {
        SameShareInAnyOrder(clock, key, t, days, other);
      }
      SameTripIff(clock, a, b);
    }
  }

  lemma FlattenPermutes<T>(lists: seq<seq<T>>, other: seq<seq<T>>)
    requires multiset(lists) == multiset(other)
    ensures multiset(Flatten(lists)) == multiset(Flatten(other))
  {
    FlattenIsFlatMap(lists);
    FlattenIsFlatMap(other);
    FlatMapPermutes((list: seq<T>) => list, lists, other);
  }

  lemma {:induction false} FlattenIsFlatMap<T>(lists: seq<seq<T>>)
    ensures Flatten(lists) == FlatMap((list: seq<T>) => list, lists)
  {
    if lists != [] {
      FlattenIsFlatMap(lists[1..]);
    }
  }

  /** Days that never meet in one bucket at one instant agree: what fetching by calendar day gives. */
  lemma ApartDaysAgree(clock: Clock, days: seq<seq<DayTrackRow>>)
    requires forall i, j, key, t :: 0 <= i < j < |days| ==> Share(clock, key, t)(days[i]) == [] || Share(clock, key, t)(days[j]) == []
    ensures DaysAgree(clock, days)
  {
    forall i, j | 0 <= i < |days| && 0 <= j < |days| && i != j ensures DaysContinue(clock, days[i], days[j]) {
      forall key, t ensures Continue(Share(clock, key, t)(days[i]), Share(clock, key, t)(days[j])) {
        var a, b := if i < j then i else j, if i < j then j else i;
        assert Share(clock, key, t)(days[a]) == [] || Share(clock, key, t)(days[b]) == [];
        assert Once([]) == [];
      }
    }
  }

  // ------------------------------------------------------------------ the loader

  /** What one job contributes to a vehicle. */
  function DayOf(source: Source, userId: nat): Job -> Rows {
    (j: Job) => if j.userId == userId && source(j.key).Some? then source(j.key).value else []
  }

  function Days(source: Source, jobs: seq<Job>, userId: nat): seq<Rows> {
    Map(DayOf(source, userId), jobs)
  }

  lemma {:induction false} NaiveIsDays(source: Source, jobs: seq<Job>, userId: nat)
    ensures NaiveRows(source, jobs, userId) == Flatten(Days(source, jobs, userId))
  {
    if jobs != [] {
      NaiveIsDays(source, jobs[1..], userId);
    }
  }

  /** A finished load holds a vehicle's days whole, in the order they were settled. */
  lemma LoadedDays(load: Load, source: Source, events: seq<Event>, userId: nat)
    requires Finished(load, source, events) && userId in load.users
    ensures var order, rows := JobsOf(Outcomes(load, events)), After(Init(load), events).ledger.rowsByUser;
      && multiset(order) == multiset(load.jobs)
      && userId in rows && rows[userId] == Flatten(Days(source, order, userId))
  {
    EveryJobSettledOnce(load, events);
    CacheStaysFaithful(load, source, events);
    HonestRowsAreNaive(source, Outcomes(load, events), userId);
    NaiveIsDays(source, JobsOf(Outcomes(load, events)), userId);
  }

  /** What a finished load holds for the vehicle groups into the trips of the naive rows. */
  lemma HeldTripsAreNaive(clock: Clock, load: Load, source: Source, events: seq<Event>, userId: nat)
    requires Finished(load, source, events) && userId in load.users && DaysAgree(clock, Days(source, load.jobs, userId))
    ensures userId in After(Init(load), events).ledger.rowsByUser
    ensures var rows, naive := After(Init(load), events).ledger.rowsByUser[userId], NaiveRows(source, load.jobs, userId);
      && multiset(Group(clock, userId, rows)) == multiset(Group(clock, userId, naive))
      && (StartsApart(clock, AllTrips(clock, userId, naive)) ==> Group(clock, userId, rows) == Group(clock, userId, naive))
  {
    var order := JobsOf(Outcomes(load, events));
    LoadedDays(load, source, events, userId);
    NaiveIsDays(source, load.jobs, userId);
    MapPermutes(DayOf(source, userId), load.jobs, order);
    DaysOrderFree(clock, Days(source, load.jobs, userId), Days(source, order, userId));
    FlattenPermutes(Days(source, load.jobs, userId), Days(source, order, userId));
    var rows, naive := After(Init(load), events).ledger.rowsByUser[userId], NaiveRows(source, load.jobs, userId);
    TripsOrderFree(clock, userId, naive, rows);
    if StartsApart(clock, AllTrips(clock, userId, naive)) {
      StartsApartCanonical(clock, userId, naive, rows);
    }
  }

  /**
   Cached or not, batched or not, in every interleaving, a finished load that does not give the endpoint
   up answers for each vehicle the trips that fetching each day once, in job order, would give, provided
   its days agree; in the same order, too, when no two of them begin together. These are one trip for each
   recording and one for each UTC day without one among the fetched rows.
   */
  lemma LoadedTripsAreNaive(clock: Clock, load: Load, source: Source, events: seq<Event>, userId: nat)
    requires Finished(load, source, events) && userId in load.users && DaysAgree(clock, Days(source, load.jobs, userId))
    ensures var answer, naive := Answer(clock, load, After(Init(load), events)), NaiveRows(source, load.jobs, userId);
      answer.Loaded? ==>
        && userId in answer.byUserId
        && multiset(answer.byUserId[userId]) == multiset(Group(clock, userId, naive))
        && (StartsApart(clock, AllTrips(clock, userId, naive)) ==> answer.byUserId[userId] == Group(clock, userId, naive))
        && exists labels :: OneTripEach(clock, userId, naive, answer.byUserId[userId], labels)
  {
    HeldTripsAreNaive(clock, load, source, events, userId);
    var answer, naive := Answer(clock, load, After(Init(load), events)), NaiveRows(source, load.jobs, userId);
    if answer.Loaded? {
      var labels := GroupsAreLabels(clock, userId, naive);
      var moved := LabelsPermute(clock, userId, naive, Group(clock, userId, naive), labels, answer.byUserId[userId]);
    }
  }

  // ------------------------------------------------------------------ days that come behind the cached ones

  function Behind(cached: Rows, days: seq<Rows>): seq<Rows> {
    Map(day => cached + day, days)
  }

  function PartsBehind(first: seq<TrackPoint>, parts: seq<seq<TrackPoint>>): seq<seq<TrackPoint>> {
    Map(part => first + part, parts)
  }

  lemma {:induction false} AllSeen(points: seq<TrackPoint>, seen: set<string>)
    requires Stamps(points) <= seen
    ensures Unique(points, seen) == []
  {
    if points != [] {
      assert points[0].utc in seen;
      assert points == [points[0]] + points[1..];
      StampsCons(points[0], points[1..]);
      AllSeen(points[1..], seen);
    }
  }

  /** Repeated behind `first`, its points take themselves away. */
  lemma {:induction false} RepeatsDrop(first: seq<TrackPoint>, parts: seq<seq<TrackPoint>>, seen: set<string>)
    requires Stamps(first) <= seen
    ensures Unique(Flatten(PartsBehind(first, parts)), seen) == Unique(Flatten(parts), seen)
  {
    if parts != [] {
      var part, rest := parts[0], parts[1..];
      var behind := Flatten(PartsBehind(first, rest));
      assert PartsBehind(first, parts) == [first + part] + PartsBehind(first, rest);
      assert (first + part) + behind == first + (part + behind);
      UniqueConcat(first, part + behind, seen);
      AllSeen(first, seen);
      assert seen + Stamps(first) == seen;
      UniqueConcat(part, behind, seen);
      UniqueConcat(part, Flatten(rest), seen);
      RepeatsDrop(first, rest, seen + Stamps(part));
    }
  }

  lemma OnceBehind(first: seq<TrackPoint>, parts: seq<seq<TrackPoint>>)
    ensures Once(first + Flatten(PartsBehind(first, parts))) == Once(first + Flatten(parts))
  {
    UniqueConcat(first, Flatten(PartsBehind(first, parts)), {});
    UniqueConcat(first, Flatten(parts), {});
    RepeatsDrop(first, parts, {} + Stamps(first));
  }

  lemma ShareOfBoth(clock: Clock, key: int, t: int, a: Rows, b: Rows)
    ensures Share(clock, key, t)(a + b) == Share(clock, key, t)(a) + Share(clock, key, t)(b)
  {
    FlatMapConcat(PointIn(clock, key), a, b);
    AtConcat(Instant(clock), Bucket(clock, a, key), Bucket(clock, b, key), t);
  }

  lemma SharesBehind(clock: Clock, key: int, t: int, cached: Rows, days: seq<Rows>)
    ensures var f := Share(clock, key, t); Map(f, Behind(cached, days)) == PartsBehind(f(cached), Map(f, days))
  {
    var f := Share(clock, key, t);
    var one, two := Map(f, Behind(cached, days)), PartsBehind(f(cached), Map(f, days));
    forall i | 0 <= i < |days| ensures one[i] == two[i] {
      ShareOfBoth(clock, key, t, cached, days[i]);
    }
  }

  /** What a bucket shows at an instant is the same if every day brings the cached rows again. */
  lemma ShownBehind(clock: Clock, key: int, t: int, cached: Rows, days: seq<Rows>)
    ensures var f := Share(clock, key, t);
      Once(f(cached + Flatten(Behind(cached, days)))) == Once(f(cached + Flatten(days)))
  {
    var f := Share(clock, key, t);
    ShareOfBoth(clock, key, t, cached, Flatten(Behind(cached, days)));
    ShareOfBoth(clock, key, t, cached, Flatten(days));
    ShareOfDays(clock, key, t, Behind(cached, days));
    ShareOfDays(clock, key, t, days);
    SharesBehind(clock, key, t, cached, days);
    OnceBehind(f(cached), Map(f, days));
  }

  lemma TripsBehind(clock: Clock, cached: Rows, days: seq<Rows>)
    ensures SameTrips(clock, cached + Flatten(Behind(cached, days)), cached + Flatten(days))
  {
    var a, b := cached + Flatten(Behind(cached, days)), cached + Flatten(days);
    forall key ensures TripPoints(clock, Bucket(clock, a, key)) == TripPoints(clock, Bucket(clock, b, key)) {
      forall t ensures Unique(At(Instant(clock), Bucket(clock, a, key), t), {}) == Unique(At(Instant(clock), Bucket(clock, b, key), t), {}) {
        ShownBehind(clock, key, t, cached, days);
      }
      SameTripIff(clock, Bucket(clock, a, key), Bucket(clock, b, key));
    }
  }

  lemma ContinueBothWays(clock: Clock, a: Rows, b: Rows)
    ensures DaysContinue(clock, a, b) ==> DaysContinue(clock, b, a)
  {
    if DaysContinue(clock, a, b) {
      forall key, t ensures Continue(Share(clock, key, t)(b), Share(clock, key, t)(a)) {
        assert Continue(Share(clock, key, t)(a), Share(clock, key, t)(b));
      }
    }
  }

  /** The cached rows alone are continued by themselves with anything behind. */
  lemma CachedContinued(clock: Clock, cached: Rows, day: Rows)
    ensures DaysContinue(clock, cached, cached + day)
  {
    forall key, t ensures Continue(Share(clock, key, t)(cached), Share(clock, key, t)(cached + day)) {
      ShareOfBoth(clock, key, t, cached, day);
      FirstStays(Share(clock, key, t)(cached), Share(clock, key, t)(day));
    }
  }

  lemma CachedAgrees(clock: Clock, cached: Rows, days: seq<Rows>)
    requires DaysAgree(clock, Behind(cached, days))
    ensures DaysAgree(clock, [cached] + Behind(cached, days))
  {
    var behind := Behind(cached, days);
    var all := [cached] + behind;
    forall i, j | 0 <= i < |all| && 0 <= j < |all| && i != j ensures DaysContinue(clock, all[i], all[j]) {
      if i > 0 && j > 0 {
        assert DaysContinue(clock, behind[i - 1], behind[j - 1]);
      } else {
        var k := if i > 0 then i - 1 else j - 1;
        CachedContinued(clock, cached, days[k]);
        ContinueBothWays(clock, cached, behind[k]);
      }
    }
  }

  /** If the days agree behind the cached rows, their order behind them does not show. */
  lemma BehindOrderFree(clock: Clock, cached: Rows, days: seq<Rows>, other: seq<Rows>)
    requires DaysAgree(clock, Behind(cached, days)) && multiset(days) == multiset(other)
    ensures SameTrips(clock, cached + Flatten(days), cached + Flatten(other))
  {
    var a, b := Behind(cached, days), Behind(cached, other);
    MapPermutes(day => cached + day, days, other);
    CachedAgrees(clock, cached, days);
    DaysOrderFree(clock, [cached] + a, [cached] + b);
    assert ([cached] + a)[1..] == a && ([cached] + b)[1..] == b;
    TripsBehind(clock, cached, days);
    TripsBehind(clock, cached, other);
    SameTripsCompose(clock, cached + Flatten(a), cached + Flatten(days), cached + Flatten(b));
    SameTripsCompose(clock, cached + Flatten(b), cached + Flatten(days), cached + Flatten(other));
  }

  lemma SameTripsCompose(clock: Clock, middle: Rows, a: Rows, b: Rows)
    requires SameTrips(clock, middle, a) && SameTrips(clock, middle, b)
    ensures SameTrips(clock, a, b) && SameTrips(clock, b, a)
  {
    forall key ensures TripPoints(clock, Bucket(clock, a, key)) == TripPoints(clock, Bucket(clock, b, key)) {
      assert TripPoints(clock, Bucket(clock, middle, key)) == TripPoints(clock, Bucket(clock, a, key));
      assert TripPoints(clock, Bucket(clock, middle, key)) == TripPoints(clock, Bucket(clock, b, key));
    }
  }

  /** Of two days, each first behind the cached rows in one of two arrivals with the same trips, one continues the other. */
  lemma FirstDaysContinue(clock: Clock, a: Rows, b: Rows, restA: Rows, restB: Rows)
    requires SameTrips(clock, a + restA, b + restB)
    ensures DaysContinue(clock, a, b)
  {
    forall key, t ensures Continue(Share(clock, key, t)(a), Share(clock, key, t)(b)) {
      var f, one, two := Share(clock, key, t), Bucket(clock, a + restA, key), Bucket(clock, b + restB, key);
      assert TripPoints(clock, one) == TripPoints(clock, two);
      SameTripIff(clock, one, two);
      assert Once(f(a + restA)) == Once(f(b + restB));
      ShareOfBoth(clock, key, t, a, restA);
      ShareOfBoth(clock, key, t, b, restB);
      FirstStays(f(a), f(restA));
      FirstStays(f(b), f(restB));
      PrefixesCompare(Once(f(a + restA)), Once(f(a)), Once(f(b)));
    }
  }

  // ------------------------------------------------------------------ all interleavings of a load

  /** The rows a vehicle has from the cache, before anything is fetched. */
  function CachedRows(load: Load, userId: nat): Rows {
    RowsOf(SeedOutcomes(load.cache, load.jobs), userId)
  }

  /** The days of a vehicle that are fetched. */
  function FetchedDays(load: Load, source: Source, userId: nat): seq<Rows> {
    Days(source, Pending(load.cache, load.jobs), userId)
  }

  lemma {:induction false} SeedFirst(load: Load, events: seq<Event>)
    requires Legal(Init(load), events)
    ensures SeedOutcomes(load.cache, load.jobs) <= Outcomes(load, events)
  {
    if events != [] {
      SeedFirst(load, events[..|events| - 1]);
    }
  }

  lemma CutAt<T>(a: seq<T>, whole: seq<T>)
    requires a <= whole
    ensures whole == a + whole[|a|..]
  {
  }

  /** The rows of settled jobs are the days of these jobs, one after the other. */
  lemma SettledDays(source: Source, outcomes: seq<Outcome>, userId: nat)
    requires HonestOutcomes(source, outcomes)
    ensures RowsOf(outcomes, userId) == Flatten(Days(source, JobsOf(outcomes), userId))
  {
    HonestRowsAreNaive(source, outcomes, userId);
    NaiveIsDays(source, JobsOf(outcomes), userId);
  }

  /** A finished load holds the cached rows and, behind them, the fetched days in some order. */
  lemma FinishedShape(load: Load, source: Source, events: seq<Event>, userId: nat) returns (order: seq<Rows>)
    requires Finished(load, source, events) && userId in load.users
    ensures multiset(order) == multiset(FetchedDays(load, source, userId))
    ensures var rows := After(Init(load), events).ledger.rowsByUser;
      userId in rows && rows[userId] == CachedRows(load, userId) + Flatten(order)
  {
    var seed, all := SeedOutcomes(load.cache, load.jobs), Outcomes(load, events);
    SeedFirst(load, events);
    CutAt(seed, all);
    var later := all[|seed|..];
    EveryJobSettledOnce(load, events);
    FinishedTellsSource(load, source, events);
    RowsOfConcat(seed, later, userId);
    SettledDays(source, later, userId);
    order := Days(source, JobsOf(later), userId);
    SeedPartition(load.cache, load.jobs);
    JobsOfConcat(seed, later);
    LaterJobs(JobsOf(seed), JobsOf(later), Pending(load.cache, load.jobs), load.jobs);
    MapPermutes(DayOf(source, userId), JobsOf(later), Pending(load.cache, load.jobs));
  }

  lemma LaterJobs(seed: seq<Job>, later: seq<Job>, pending: seq<Job>, jobs: seq<Job>)
    requires multiset(seed + later) == multiset(jobs) == multiset(seed) + multiset(pending)
    ensures multiset(later) == multiset(pending)
  {
    assert multiset(later) + multiset(seed) == multiset(seed + later);
    CancelSame(multiset(later), multiset(pending), multiset(seed));
  }

  /** Two finished runs give the vehicle the same trips. */
  ghost predicate RunsAgree(clock: Clock, load: Load, userId: nat, e1: seq<Event>, e2: seq<Event>)
    requires Legal(Init(load), e1) && Legal(Init(load), e2)
  {
    var a, b := After(Init(load), e1).ledger.rowsByUser, After(Init(load), e2).ledger.rowsByUser;
    userId in a && userId in b && SameTrips(clock, a[userId], b[userId])
  }

  /** The fetched days agree, each behind the cached rows. */
  ghost predicate FetchedAgree(clock: Clock, load: Load, source: Source, userId: nat) {
    DaysAgree(clock, Behind(CachedRows(load, userId), FetchedDays(load, source, userId)))
  }

  /** Whatever the size of the load: if the fetched days agree, every interleaving gives the same trips. */
  lemma AgreeingDaysAgree(clock: Clock, load: Load, source: Source, userId: nat, e1: seq<Event>, e2: seq<Event>)
    requires Finished(load, source, e1) && Finished(load, source, e2) && userId in load.users
    requires FetchedAgree(clock, load, source, userId)
    ensures RunsAgree(clock, load, userId, e1, e2)
  {
    var cached, days := CachedRows(load, userId), FetchedDays(load, source, userId);
    var one := FinishedShape(load, source, e1, userId);
    var two := FinishedShape(load, source, e2, userId);
    BehindOrderFree(clock, cached, days, one);
    BehindOrderFree(clock, cached, days, two);
    SameTripsCompose(clock, cached + Flatten(days), cached + Flatten(one), cached + Flatten(two));
  }

  /** Every two finished runs give the vehicle the same trips. */
  ghost predicate InterleavingsAgree(clock: Clock, load: Load, source: Source, userId: nat) {
    forall e1, e2 :: Finished(load, source, e1) && Finished(load, source, e2) ==> RunsAgree(clock, load, userId, e1, e2)
  }

  /** A run in which the day of pending job `k` comes first behind the cached rows. */
  lemma DayFirst(load: Load, source: Source, userId: nat, k: nat) returns (events: seq<Event>, rest: Rows)
    requires load.useBatch && Faithful(load.cache, source) && KeysTellVehicles(load.jobs) && userId in load.users
    requires var pending := Pending(load.cache, load.jobs);
      k < |pending| && k < FIRST_EIGHT && source(pending[k].key).Some?
    ensures Finished(load, source, events)
    ensures var rows := After(Init(load), events).ledger.rowsByUser;
      userId in rows && rows[userId] == CachedRows(load, userId) + FetchedDays(load, source, userId)[k] + rest
  {
    var first;
    var job, seed := Pending(load.cache, load.jobs)[k], SeedOutcomes(load.cache, load.jobs);
    events, first := AnyDayFirst(load, source, k);
    var all := Outcomes(load, events);
    CutAt(seed + [first], all);
    rest := RowsOf(all[|seed + [first]|..], userId);
    EveryJobSettledOnce(load, events);
    FinishedTellsSource(load, source, events);
    assert first == all[|seed|];
    PendingAmong(load.cache, load.jobs);
    assert job in load.jobs && job.userId == first.job.userId;
    RowsOfConcat(seed + [first], all[|seed + [first]|..], userId);
    RowsOfConcat(seed, [first], userId);
    RowsOfOne(first, userId);
  }

  lemma EarlyDaysContinue(clock: Clock, load: Load, source: Source, userId: nat, i: nat, j: nat)
    requires load.useBatch && Faithful(load.cache, source) && KeysTellVehicles(load.jobs) && userId in load.users
    requires InterleavingsAgree(clock, load, source, userId)
    requires var n := |Pending(load.cache, load.jobs)|; i < n && j < n && i < FIRST_EIGHT && j < FIRST_EIGHT
    ensures var days := Behind(CachedRows(load, userId), FetchedDays(load, source, userId));
      DaysContinue(clock, days[i], days[j])
  {
    var pending, cached, days := Pending(load.cache, load.jobs), CachedRows(load, userId), FetchedDays(load, source, userId);
    if source(pending[i].key).None? {
      assert cached + days[i] == cached;
      CachedContinued(clock, cached, days[j]);
    } else if source(pending[j].key).None? {
      assert cached + days[j] == cached;
      CachedContinued(clock, cached, days[i]);
      ContinueBothWays(clock, cached, cached + days[i]);
    } else {
      var e1, rest1 := DayFirst(load, source, userId, i);
      var e2, rest2 := DayFirst(load, source, userId, j);
      assert RunsAgree(clock, load, userId, e1, e2);
      FirstDaysContinue(clock, cached + days[i], cached + days[j], rest1, rest2);
    }
  }

  /**
   When the days to fetch fit into the eight chunks that run at once, a vehicle's trips are the same in
   every interleaving exactly when, behind the cached rows, its fetched days agree.
   */
  lemma InterleavingsAgreeIff(clock: Clock, load: Load, source: Source, userId: nat)
    requires load.useBatch && Faithful(load.cache, source) && KeysTellVehicles(load.jobs) && userId in load.users
    requires |Pending(load.cache, load.jobs)| <= FIRST_EIGHT
    ensures InterleavingsAgree(clock, load, source, userId) <==> FetchedAgree(clock, load, source, userId)
  {
    if FetchedAgree(clock, load, source, userId) {
      forall e1, e2 | Finished(load, source, e1) && Finished(load, source, e2) ensures RunsAgree(clock, load, userId, e1, e2) {
        AgreeingDaysAgree(clock, load, source, userId, e1, e2);
      }
    }
    if InterleavingsAgree(clock, load, source, userId) {
      var days := Behind(CachedRows(load, userId), FetchedDays(load, source, userId));
      forall i, j | 0 <= i < |days| && 0 <= j < |days| && i != j ensures DaysContinue(clock, days[i], days[j]) {
        EarlyDaysContinue(clock, load, source, userId, i, j);
      }
    }
  }

  lemma {:induction false} NothingCached(jobs: seq<Job>)
    ensures Pending([], jobs) == jobs && SeedOutcomes([], jobs) == []
  {
    if jobs != [] {
      NothingCached(jobs[..|jobs| - 1]);
      assert jobs == jobs[..|jobs| - 1] + [jobs[|jobs| - 1]];
    }
  }

  /** With nothing cached, exactly when its days agree. */
  lemma ColdInterleavingsAgreeIff(clock: Clock, load: Load, source: Source, userId: nat)
    requires load.useBatch && load.cache == [] && KeysTellVehicles(load.jobs) && userId in load.users
    requires |load.jobs| <= FIRST_EIGHT
    ensures InterleavingsAgree(clock, load, source, userId) <==> DaysAgree(clock, Days(source, load.jobs, userId))
  {
    NothingCached(load.jobs);
    InterleavingsAgreeIff(clock, load, source, userId);
    NothingBehind(Days(source, load.jobs, userId));
  }

  lemma NothingBehind(days: seq<Rows>)
    ensures Behind([], days) == days
  {
    forall i | 0 <= i < |days| ensures Behind([], days)[i] == days[i] {
      assert [] + days[i] == days[i];
    }
  }
}
