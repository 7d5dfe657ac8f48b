/** What the track loader returns, told on the recordings and their tracks alone, and how its endpoint state moves. */
module TrackTrips {
  import opened Seqs
  import opened BoundedCache
  import opened Tracks
  import opened TrackLoader

  // ------------------------------------------------------------------ the trips of counted results

  /** A result that carries points. */
  ghost predicate Full(points: Option<Points>) {
    points.Some? && points.value != []
  }

  /** The trip is the recording's: its id, its user, when it was created, and its points. */
  ghost predicate TripShows(trip: Trip, info: TrackInfo, points: Points) {
    trip.trackInfoId == info.id && trip.userId == info.userId && trip.created == info.created && trip.tracks == points
  }

  /** The trips are those of the results with points, one for each and in their order. */
  ghost predicate TripsFollow(trips: seq<Trip>, outcomes: seq<Outcome>) {
    if outcomes == [] then trips == []
    else if !Full(outcomes[0].points) then TripsFollow(trips, outcomes[1..])
    else trips != [] && TripShows(trips[0], outcomes[0].info, outcomes[0].points.value) && TripsFollow(trips[1..], outcomes[1..])
  }

  lemma {:induction false} CountedTripsFollow(outcomes: seq<Outcome>)
    ensures TripsFollow(TripsOf(outcomes), outcomes)
  {
    if outcomes != [] {
      CountedTripsFollow(outcomes[1..]);
      var rest := TripsOf(outcomes[1..]);
      assert TripsOf(outcomes) == TripOf(outcomes[0]) + rest;
      if Full(outcomes[0].points) {
        assert TripsOf(outcomes)[1..] == rest;
      } else {
        assert [] + rest == rest;
      }
    }
  }

  /** How many results are failures. */
  ghost function Failures(outcomes: seq<Outcome>): nat {
    |set i | 0 <= i < |outcomes| && outcomes[i].points.None?|
  }

  lemma {:induction false} SkipsAreFailures(outcomes: seq<Outcome>)
    ensures Skips(outcomes) == Failures(outcomes)
  {
    if outcomes != [] {
      var init := outcomes[..|outcomes| - 1];
      SkipsAreFailures(init);
      var before := set i | 0 <= i < |init| && init[i].points.None?;
      var all := set i | 0 <= i < |outcomes| && outcomes[i].points.None?;
      assert all == before + if outcomes[|outcomes| - 1].points.None? then {|outcomes| - 1} else {};
    }
  }

  /** At every moment of every run the counters and trips are those of the results counted so far. */
  lemma CountersAndTrips(infos: seq<TrackInfo>, endpoint: Endpoint, cache: TrackCache, events: seq<Event>)
    requires Legal(Init(infos, endpoint, cache), events)
    ensures var s, done := After(Init(infos, endpoint, cache), events), Outcomes(infos, endpoint, cache, events);
      s.loaded == |done| && s.skipped == Failures(done) && TripsFollow(s.trips, done)
  {
    CountersReflectOutcomes(infos, endpoint, cache, events);
    CountedTripsFollow(Outcomes(infos, endpoint, cache, events));
    SkipsAreFailures(Outcomes(infos, endpoint, cache, events));
  }

  // ------------------------------------------------------------------ against a fixed source

  /** `part` has exactly the infos of `infos` that `keep` keeps, each as often. */
  ghost predicate Chosen(part: seq<TrackInfo>, infos: seq<TrackInfo>, keep: TrackInfo -> bool) {
    forall info :: multiset(part)[info] == if keep(info) then multiset(infos)[info] else 0
  }

  lemma ChosenCons(info: TrackInfo, part: seq<TrackInfo>, infos: seq<TrackInfo>, keep: TrackInfo -> bool)
    requires Chosen(part, infos, keep)
    ensures Chosen(if keep(info) then [info] + part else part, [info] + infos, keep)
  {
    assert multiset([info] + infos) == multiset{info} + multiset(infos);
    assert multiset([info] + part) == multiset{info} + multiset(part);
  }

  lemma ChosenFrom(part: seq<TrackInfo>, infos: seq<TrackInfo>, other: seq<TrackInfo>, keep: TrackInfo -> bool)
    requires Chosen(part, infos, keep) && multiset(infos) == multiset(other)
    ensures Chosen(part, other, keep)
  {
  }

  function HasPoints(source: Source): TrackInfo -> bool {
    (info: TrackInfo) => source(info.id).Some? && source(info.id).value != []
  }

  function HasNone(source: Source): TrackInfo -> bool {
    (info: TrackInfo) => source(info.id).None?
  }

  /** One trip for each of these recordings, in this order, with the source's points. */
  ghost predicate OneTripPer(trips: seq<Trip>, order: seq<TrackInfo>, source: Source) {
    |order| == |trips|
    && forall k :: 0 <= k < |trips| ==> source(order[k].id).Some? && TripShows(trips[k], order[k], source(order[k].id).value)
  }

  lemma {:induction false} FullInfos(source: Source, trips: seq<Trip>, outcomes: seq<Outcome>) returns (order: seq<TrackInfo>)
    requires Honest(source, outcomes) && TripsFollow(trips, outcomes)
    ensures OneTripPer(trips, order, source) && Chosen(order, InfosOf(outcomes), HasPoints(source))
  {
    if outcomes == [] {
      order := [];
    } else {
      var o := outcomes[0];
      var full := Full(o.points);
      var rest := FullInfos(source, if full then trips[1..] else trips, outcomes[1..]);
      ChosenCons(o.info, rest, InfosOf(outcomes[1..]), HasPoints(source));
      assert InfosOf(outcomes) == [o.info] + InfosOf(outcomes[1..]);
      order := if full then [o.info] + rest else rest;
      if full {
        TripPerCons(trips, o.info, rest, source);
      }
    }
  }

  lemma TripPerCons(trips: seq<Trip>, info: TrackInfo, rest: seq<TrackInfo>, source: Source)
    requires trips != [] && OneTripPer(trips[1..], rest, source)
    requires source(info.id).Some? && TripShows(trips[0], info, source(info.id).value)
    ensures OneTripPer(trips, [info] + rest, source)
  {
    var order := [info] + rest;
    forall k | 0 <= k < |trips| ensures source(order[k].id).Some? && TripShows(trips[k], order[k], source(order[k].id).value) {
      if k > 0 {
        assert trips[k] == trips[1..][k - 1] && order[k] == rest[k - 1];
      }
    }
  }

  lemma {:induction false} FailedInfos(source: Source, outcomes: seq<Outcome>) returns (failed: seq<TrackInfo>)
    requires Honest(source, outcomes)
    ensures |failed| == |Skipped(outcomes)| && Chosen(failed, InfosOf(outcomes), HasNone(source))
  {
    if outcomes == [] {
      failed := [];
    } else {
      var o := outcomes[0];
      var rest := FailedInfos(source, outcomes[1..]);
      ChosenCons(o.info, rest, InfosOf(outcomes[1..]), HasNone(source));
      assert InfosOf(outcomes) == [o.info] + InfosOf(outcomes[1..]);
      failed := if o.points.None? then [o.info] + rest else rest;
    }
  }

  /**
   What a finished load returns, for every endpoint state and interleaving: one trip for each recording
   whose track the source has with points, carrying the recording's id, user and date and exactly these
   points; and as many skipped as there are recordings the source cannot give.
   */
  lemma ReturnsTheTracks(infos: seq<TrackInfo>, endpoint: Endpoint, cache: TrackCache, source: Source, events: seq<Event>)
    returns (order: seq<TrackInfo>, failed: seq<TrackInfo>)
    requires HonestRun(infos, endpoint, cache, source, events)
    requires Complete(After(Init(infos, endpoint, cache), events))
    ensures var s := After(Init(infos, endpoint, cache), events);
      && |order| == |s.trips| && Chosen(order, infos, HasPoints(source))
      && (forall k :: 0 <= k < |s.trips| ==>
            && s.trips[k].trackInfoId == order[k].id && s.trips[k].userId == order[k].userId
            && s.trips[k].created == order[k].created && Some(s.trips[k].tracks) == source(order[k].id))
      && s.skipped == |failed| && Chosen(failed, infos, HasNone(source))
  {
    var s, done := After(Init(infos, endpoint, cache), events), Outcomes(infos, endpoint, cache, events);
    EveryInfoCountedOnce(infos, endpoint, cache, events);
    RunHonest(infos, endpoint, cache, source, events);
    CountersAndTrips(infos, endpoint, cache, events);
    SkipsCount(done);
    order := FullInfos(source, s.trips, done);
    failed := FailedInfos(source, done);
    ChosenFrom(order, InfosOf(done), infos, HasPoints(source));
    ChosenFrom(failed, InfosOf(done), infos, HasNone(source));
  }

  // ------------------------------------------------------------------ the batch endpoint

  ghost predicate Returned(chunk: seq<TrackInfo>, byId: map<int, Points>, failed: set<int>, o: Outcome) {
    o.info in chunk && o.info.id !in failed && o.info.id in byId && o.points == Some(byId[o.info.id])
  }

  /** Of a batch answer, what it names as failed or leaves out is fetched directly, and the rest is counted at once. */
  lemma AnswerSplits(chunk: seq<TrackInfo>, byId: map<int, Points>, failed: set<int>)
    ensures forall info :: info in Missing(chunk, byId, failed) <==> info in chunk && (info.id in failed || info.id !in byId)
    ensures forall o :: o in AnswerOutcomes(chunk, byId, failed) <==> Returned(chunk, byId, failed, o)
  {
    if chunk != [] {
      AnswerSplits(chunk[..|chunk| - 1], byId, failed);
      assert chunk == chunk[..|chunk| - 1] + [chunk[|chunk| - 1]];
    }
  }

  /** The events that tell about the endpoint. */
  ghost predicate Tells(e: Event) {
    e.Answer? || (e.Break? && e.unavailable)
  }

  /** The event at `i` is the last that tells. */
  ghost predicate LastTells(events: seq<Event>, i: nat) {
    i < |events| && Tells(events[i]) && forall j :: i < j < |events| ==> !Tells(events[j])
  }

  lemma LastTellsSnoc(events: seq<Event>, i: nat)
    requires events != []
    ensures LastTells(events, i)
      <==> if Tells(events[|events| - 1]) then i == |events| - 1 else LastTells(events[..|events| - 1], i)
  {
    var init := events[..|events| - 1];
    assert forall j :: 0 <= j < |init| ==> init[j] == events[j];
  }

  lemma {:induction false} PushKeepsEndpoint(s: State, more: seq<Outcome>)
    ensures PushAll(s, more).endpoint == s.endpoint
  {
    if more != [] {
      PushKeepsEndpoint(s, more[..|more| - 1]);
    }
  }

  /** The state of the endpoint after these events: what the last telling one said, or else what it was. */
  ghost predicate ToldBy(endpoint: Endpoint, events: seq<Event>, now: Endpoint) {
    && ((forall i: nat :: !LastTells(events, i)) ==> now == endpoint)
    && forall i: nat :: LastTells(events, i) ==> now == if events[i].Answer? then Yes else No
  }

  /** The endpoint is what the last telling event said: an answer makes it available, a missing endpoint not. */
  lemma {:induction false} EndpointIsLastTold(infos: seq<TrackInfo>, endpoint: Endpoint, cache: TrackCache, events: seq<Event>)
    requires Legal(Init(infos, endpoint, cache), events)
    ensures ToldBy(endpoint, events, After(Init(infos, endpoint, cache), events).endpoint)
  {
    if events == [] {
      PushKeepsEndpoint(Idle(endpoint, cache), CachedOutcomes(Idle(endpoint, cache), infos));
    } else {
      var init, last := events[..|events| - 1], events[|events| - 1];
      EndpointIsLastTold(infos, endpoint, cache, init);
      var s := After(Init(infos, endpoint, cache), init);
      assert Step(s, last).endpoint == NextEndpoint(s, last);
      ToldByOneMore(endpoint, events, s.endpoint, NextEndpoint(s, last));
    }
  }

  lemma ToldByOneMore(endpoint: Endpoint, events: seq<Event>, before: Endpoint, now: Endpoint)
    requires events != [] && ToldBy(endpoint, events[..|events| - 1], before)
    requires now == if !Tells(events[|events| - 1]) then before else if events[|events| - 1].Answer? then Yes else No
    ensures ToldBy(endpoint, events, now)
  {
    var init, last := events[..|events| - 1], events[|events| - 1];
    forall i: nat ensures LastTells(events, i) <==> if Tells(last) then i == |events| - 1 else LastTells(init, i) {
      LastTellsSnoc(events, i);
    }
    if Tells(last) {
      assert LastTells(events, |events| - 1);
    }
  }

  /** A chunk asks the batch exactly when the endpoint is not known to be missing; otherwise its tracks are fetched directly. */
  lemma StartAsksBatch(s: State, c: nat)
    requires Enabled(s, Start(c))
    ensures Step(s, Start(c)).workers[c] == if s.endpoint == No then Direct(s.chunks[c], [], []) else Fetching
  {
  }
}
