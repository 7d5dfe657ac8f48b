/**
 The track loader: cached tracks first, then id chunks through the batch endpoint, with a direct
 fetch per track for whatever the batch did not return. The events of different chunks interleave
 freely; `batchEndpoint` is shared by all of them.
 */
module TrackLoader {
  import opened Seqs
  import opened BoundedCache
  import opened Tracks
  import opened UserDays

  const TRACK_CACHE_MAX := 800
  const TRACK_BATCH_SIZE := 20

  type Points = seq<TrackPoint>
  type TrackCache = seq<Entry<int, Points>>
  datatype Endpoint = Unknown | Yes | No

  /** How an info was counted: with its points, or as skipped. */
  datatype Outcome = Outcome(info: TrackInfo, points: Option<Points>)

  /**
   A worker of one chunk: `todo` has not started, `flying` is being fetched because it was not
   cached, and `held` are results of `loadOneTrack` whose `pushResult` has not run yet. A chunk is
   finished at `Direct([], [], [])`.
   */
  datatype Worker = Waiting | Fetching | Direct(todo: seq<TrackInfo>, flying: seq<TrackInfo>, held: seq<Outcome>)

  datatype State = State(
    chunks: seq<seq<TrackInfo>>, workers: seq<Worker>, endpoint: Endpoint, cache: TrackCache,
    trips: seq<Trip>, loaded: int, skipped: int)

  datatype Event =
    | Start(c: nat)
    | Answer(c: nat, byId: map<int, Points>, failed: set<int>)
    | Break(c: nat, unavailable: bool)
    | Hit(c: nat, i: nat)
    | Launch(c: nat, i: nat)
    | Fetched(c: nat, i: nat, points: Option<Points>)
    | Release(c: nat, i: nat)

  // ------------------------------------------------------------------ counting a result

  function TripOf(o: Outcome): seq<Trip> {
    if o.points.None? || o.points.value == [] then []
    else [Trip(o.info.id, o.info.userId, o.info.created, o.points.value)]
  }

  /** `pushResult`. */
  function PushResult(s: State, o: Outcome): State {
    var s1 := s.(loaded := s.loaded + 1);
    if o.points.None? then s1.(skipped := s.skipped + 1)
    else s1.(cache := Remember(s.cache, TRACK_CACHE_MAX, o.info.id, o.points.value), trips := s.trips + TripOf(o))
  }

  function PushAll(s: State, outcomes: seq<Outcome>): State {
    if outcomes == [] then s else PushResult(PushAll(s, outcomes[..|outcomes| - 1]), outcomes[|outcomes| - 1])
  }

  /** The outcomes of the first pass over the infos: each cached track is pushed as it is found. */
  function CachedOutcomes(s: State, infos: seq<TrackInfo>): seq<Outcome> {
    if infos == [] then []
    else
      var before := CachedOutcomes(s, infos[..|infos| - 1]);
      var info := infos[|infos| - 1];
      var cached := Get(PushAll(s, before).cache, info.id);
      before + if cached.Some? then [Outcome(info, cached)] else []
  }

  function Pending(s: State, infos: seq<TrackInfo>): seq<TrackInfo> {
    if infos == [] then []
    else
      var before := CachedOutcomes(s, infos[..|infos| - 1]);
      var info := infos[|infos| - 1];
      Pending(s, infos[..|infos| - 1]) + if Get(PushAll(s, before).cache, info.id).None? then [info] else []
  }

  /** One more info of the first pass: pushed when cached, left to fetch otherwise. */
  lemma FirstPassStep(s: State, infos: seq<TrackInfo>, i: nat)
    requires i < |infos|
    ensures var before := CachedOutcomes(s, infos[..i]);
      var cached := Get(PushAll(s, before).cache, infos[i].id);
      var result := Outcome(infos[i], cached);
      && PushAll(s, CachedOutcomes(s, infos[..i + 1]))
        == (if cached.Some? then PushResult(PushAll(s, before), result) else PushAll(s, before))
      && Pending(s, infos[..i + 1]) == Pending(s, infos[..i]) + (if cached.None? then [infos[i]] else [])
  {
    assert infos[..i + 1][..i] == infos[..i];
    var before := CachedOutcomes(s, infos[..i]);
    var cached := Get(PushAll(s, before).cache, infos[i].id);
    assert before + [] == before;
    assert (before + [Outcome(infos[i], cached)])[..|before|] == before;
  }

  /** The infos of a chunk a batch answer returned, and those it did not. */
  predicate Answered(info: TrackInfo, byId: map<int, Points>, failed: set<int>) {
    info.id !in failed && info.id in byId
  }

  function AnswerOutcomes(chunk: seq<TrackInfo>, byId: map<int, Points>, failed: set<int>): seq<Outcome> {
    if chunk == [] then []
    else
      var info := chunk[|chunk| - 1];
      AnswerOutcomes(chunk[..|chunk| - 1], byId, failed)
      + if Answered(info, byId, failed) then [Outcome(info, Some(byId[info.id]))] else []
  }

  function Missing(chunk: seq<TrackInfo>, byId: map<int, Points>, failed: set<int>): seq<TrackInfo> {
    if chunk == [] then []
    else
      var info := chunk[|chunk| - 1];
      Missing(chunk[..|chunk| - 1], byId, failed) + if Answered(info, byId, failed) then [] else [info]
  }

  // ------------------------------------------------------------------ steps

  function Idle(endpoint: Endpoint, cache: TrackCache): State {
    State([], [], endpoint, cache, [], 0, 0)
  }

  function Init(infos: seq<TrackInfo>, endpoint: Endpoint, cache: TrackCache): State {
    var s0 := Idle(endpoint, cache);
    var s := PushAll(s0, CachedOutcomes(s0, infos));
    var pending := Pending(s0, infos);
    if endpoint != No then
      var chunks := Chunks(pending, TRACK_BATCH_SIZE);
      s.(chunks := chunks, workers := seq(|chunks|, i => Waiting))
    else s.(chunks := [pending], workers := [Direct(pending, [], [])])
  }

  predicate Enabled(s: State, e: Event) {
    |s.workers| == |s.chunks| && e.c < |s.workers| &&
    var w := s.workers[e.c];
    match e
    case Start(_) => w.Waiting?
    case Answer(_, _, _) => w.Fetching?
    case Break(_, _) => w.Fetching?
    case Hit(_, i) => w.Direct? && i < |w.todo| && Get(s.cache, w.todo[i].id).Some?
    case Launch(_, i) => w.Direct? && i < |w.todo| && Get(s.cache, w.todo[i].id).None?
    case Fetched(_, i, _) => w.Direct? && i < |w.flying|
    case Release(_, i) => w.Direct? && i < |w.held|
  }

  function NextWorker(s: State, e: Event): Worker
    requires Enabled(s, e)
  {
    var w := s.workers[e.c];
    match e
    case Start(c) => if s.endpoint == No then Direct(s.chunks[c], [], []) else Fetching
    case Answer(c, byId, failed) => Direct(Missing(s.chunks[c], byId, failed), [], [])
    case Break(c, _) => Direct(s.chunks[c], [], [])
    case Hit(_, i) =>
      Direct(RemoveAt(w.todo, i), w.flying, w.held + [Outcome(w.todo[i], Get(s.cache, w.todo[i].id))])
    case Launch(_, i) => Direct(RemoveAt(w.todo, i), w.flying + [w.todo[i]], w.held)
    case Fetched(_, i, points) => Direct(w.todo, RemoveAt(w.flying, i), w.held + [Outcome(w.flying[i], points)])
    case Release(_, i) => Direct(w.todo, w.flying, RemoveAt(w.held, i))
  }

  /** The results an event counts. */
  function Pushes(s: State, e: Event): seq<Outcome>
    requires Enabled(s, e)
  {
    match e
    case Answer(c, byId, failed) => AnswerOutcomes(s.chunks[c], byId, failed)
    case Release(c, i) => [s.workers[c].held[i]]
    case _ => []
  }

  function NextEndpoint(s: State, e: Event): Endpoint {
    match e
    case Answer(_, _, _) => Yes
    case Break(_, unavailable) => if unavailable then No else s.endpoint
    case _ => s.endpoint
  }

  /** A direct fetch remembers its track at once; its result is counted at its release. */
  function FetchCache(s: State, e: Event): TrackCache
    requires Enabled(s, e)
  {
    match e
    case Fetched(c, i, Some(points)) => Remember(s.cache, TRACK_CACHE_MAX, s.workers[c].flying[i].id, points)
    case _ => s.cache
  }

  function Step(s: State, e: Event): State
    requires Enabled(s, e)
  {
    PushAll(s.(cache := FetchCache(s, e)), Pushes(s, e))
      .(workers := s.workers[e.c := NextWorker(s, e)], endpoint := NextEndpoint(s, e))
  }

  predicate Legal(s: State, events: seq<Event>)
    decreases |events|, 0
  {
    events == [] || (Legal(s, events[..|events| - 1])
      && Enabled(After(s, events[..|events| - 1]), events[|events| - 1]))
  }

  function After(s: State, events: seq<Event>): State
    requires Legal(s, events)
    decreases |events|, 1
  {
    if events == [] then s else Step(After(s, events[..|events| - 1]), events[|events| - 1])
  }

  predicate Complete(s: State) {
    forall c :: 0 <= c < |s.workers| ==> s.workers[c] == Direct([], [], [])
  }

  /** Every result counted since the call began. */
  function Outcomes(infos: seq<TrackInfo>, endpoint: Endpoint, cache: TrackCache, events: seq<Event>): seq<Outcome>
    requires Legal(Init(infos, endpoint, cache), events)
  {
    if events == [] then CachedOutcomes(Idle(endpoint, cache), infos)
    else
      var init := events[..|events| - 1];
      Outcomes(infos, endpoint, cache, init) + Pushes(After(Init(infos, endpoint, cache), init), events[|events| - 1])
  }

  // ------------------------------------------------------------------ the loader object

  /** One call of the loader as a mutable object; `View` is its state in the model above. */
  class TrackLoad {
    var chunks: seq<seq<TrackInfo>>
    var workers: seq<Worker>
    var endpoint: Endpoint
    var cache: TrackCache
    var trips: seq<Trip>
    var loaded: int
    var skipped: int

    ghost function View(): State
      reads this
    {
      State(chunks, workers, endpoint, cache, trips, loaded, skipped)
    }

    constructor (infos: seq<TrackInfo>, endpoint: Endpoint, cache: TrackCache)
      ensures View() == Init(infos, endpoint, cache)
    {
      this.endpoint, this.cache := endpoint, cache;
      trips, loaded, skipped, chunks, workers := [], 0, 0, [], [];
      new;
      ghost var s0 := Idle(endpoint, cache);
      var pending: seq<TrackInfo> := [];
      for i := 0 to |infos|
        invariant View() == PushAll(s0, CachedOutcomes(s0, infos[..i]))
        invariant pending == Pending(s0, infos[..i])
      {
        FirstPassStep(s0, infos, i);
        var cached := Get(this.cache, infos[i].id);
        if cached.Some? {
          Push(Outcome(infos[i], cached));
        } else {
          pending := pending + [infos[i]];
        }
      }
      assert infos[..|infos|] == infos;
      PushAllFrame(s0, CachedOutcomes(s0, infos));
      if endpoint != No {
        chunks := ChunkArray(pending, TRACK_BATCH_SIZE);
        workers := seq(|chunks|, i => Waiting);
      } else {
        chunks, workers := [pending], [Direct(pending, [], [])];
      }
    }

    method RememberTracks(id: int, points: Points)
      modifies this`cache
      ensures cache == Remember(old(cache), TRACK_CACHE_MAX, id, points)
    {
      cache := Write(cache, TRACK_CACHE_MAX, id, points);
    }

    method Push(o: Outcome)
      modifies this`loaded, this`skipped, this`cache, this`trips
      ensures View() == PushResult(old(View()), o)
    {
      loaded := loaded + 1;
      if o.points.None? {
        skipped := skipped + 1;
      } else {
        RememberTracks(o.info.id, o.points.value);
        if o.points.value != [] {
          trips := trips + [Trip(o.info.id, o.info.userId, o.info.created, o.points.value)];
        }
      }
    }

    /** Push what the batch returned and list what it did not. */
    method TakeAnswer(chunk: seq<TrackInfo>, byId: map<int, Points>, failed: set<int>) returns (missing: seq<TrackInfo>)
      modifies this`loaded, this`skipped, this`cache, this`trips
      ensures View() == PushAll(old(View()), AnswerOutcomes(chunk, byId, failed))
      ensures missing == Missing(chunk, byId, failed)
    {
      missing := [];
      for i := 0 to |chunk|
        invariant View() == PushAll(old(View()), AnswerOutcomes(chunk[..i], byId, failed))
        invariant missing == Missing(chunk[..i], byId, failed)
      {
        assert chunk[..i + 1][..i] == chunk[..i];
        ghost var before := AnswerOutcomes(chunk[..i], byId, failed);
        assert before + [] == before;
        if chunk[i].id in failed || chunk[i].id !in byId {
          missing := missing + [chunk[i]];
        } else {
          var o := Outcome(chunk[i], Some(byId[chunk[i].id]));
          assert (before + [o])[..|before|] == before;
          Push(o);
        }
      }
      assert chunk[..|chunk|] == chunk;
    }

    /** One event of the pool. */
    method Perform(e: Event)
      requires Enabled(View(), e)
      modifies this
      ensures View() == Step(old(View()), e)
    {
      var w := workers[e.c];
      PushAllFrame(View().(cache := FetchCache(View(), e)), Pushes(View(), e));
      match e {
        case Start(c) =>
          workers := workers[c := if endpoint == No then Direct(chunks[c], [], []) else Fetching];
        case Answer(c, byId, failed) =>
          var missing := TakeAnswer(chunks[c], byId, failed);
          endpoint := Yes;
          workers := workers[c := Direct(missing, [], [])];
        case Break(c, unavailable) =>
          if unavailable {
            endpoint := No;
          }
          workers := workers[c := Direct(chunks[c], [], [])];
        case Hit(c, i) =>
          var cached := Get(cache, w.todo[i].id);
          workers := workers[c := Direct(RemoveAt(w.todo, i), w.flying, w.held + [Outcome(w.todo[i], cached)])];
        case Launch(c, i) =>
          workers := workers[c := Direct(RemoveAt(w.todo, i), w.flying + [w.todo[i]], w.held)];
        case Fetched(c, i, points) =>
          if points.Some? {
            RememberTracks(w.flying[i].id, points.value);
          }
          workers := workers[c := Direct(w.todo, RemoveAt(w.flying, i), w.held + [Outcome(w.flying[i], points)])];
        case Release(c, i) =>
          assert [w.held[i]][..0] == [];
          Push(w.held[i]);
          workers := workers[c := Direct(w.todo, w.flying, RemoveAt(w.held, i))];
      }
    }
  }

  /** Drive a call through a schedule: the object ends where the model's run ends. */
  method RunSchedule(infos: seq<TrackInfo>, endpoint: Endpoint, cache: TrackCache, events: seq<Event>) returns (load: TrackLoad)
    requires Legal(Init(infos, endpoint, cache), events)
    ensures fresh(load) && load.View() == After(Init(infos, endpoint, cache), events)
  {
    load := new TrackLoad(infos, endpoint, cache);
    for i := 0 to |events|
      invariant Legal(Init(infos, endpoint, cache), events[..i])
      invariant load.View() == After(Init(infos, endpoint, cache), events[..i])
      invariant fresh(load)
    {
      LegalPrefix(Init(infos, endpoint, cache), events, i + 1);
      assert events[..i + 1][..i] == events[..i];
      load.Perform(events[i]);
    }
    assert events[..|events|] == events;
  }

  lemma {:induction false} LegalPrefix(s: State, events: seq<Event>, n: nat)
    requires Legal(s, events) && n <= |events|
    ensures Legal(s, events[..n])
  {
    if n < |events| {
      LegalPrefix(s, events[..|events| - 1], n);
      assert events[..|events| - 1][..n] == events[..n];
    } else {
      assert events[..n] == events;
    }
  }

  // ------------------------------------------------------------------ the cache follows use

  /** The cache writes of an event: a direct fetch writes at once, and every counted track writes again. */
  function Writes(s: State, e: Event): seq<Entry<int, Points>>
    requires Enabled(s, e)
  {
    (match e
     case Fetched(c, i, Some(points)) => [Entry(s.workers[c].flying[i].id, points)]
     case _ => []) + UseWrites(Pushes(s, e))
  }

  function UseWrite(o: Outcome): seq<Entry<int, Points>> {
    if o.points.Some? then [Entry(o.info.id, o.points.value)] else []
  }

  function UseWrites(outcomes: seq<Outcome>): seq<Entry<int, Points>> {
    FlatMap(UseWrite, outcomes)
  }

  function RunWrites(infos: seq<TrackInfo>, endpoint: Endpoint, cache: TrackCache, events: seq<Event>): seq<Entry<int, Points>>
    requires Legal(Init(infos, endpoint, cache), events)
  {
    if events == [] then UseWrites(CachedOutcomes(Idle(endpoint, cache), infos))
    else
      var init := events[..|events| - 1];
      RunWrites(infos, endpoint, cache, init) + Writes(After(Init(infos, endpoint, cache), init), events[|events| - 1])
  }

  lemma {:induction false} PushAllCache(s: State, more: seq<Outcome>)
    ensures PushAll(s, more).cache == Replay(s.cache, TRACK_CACHE_MAX, UseWrites(more))
  {
    if more != [] {
      var init, o := more[..|more| - 1], more[|more| - 1];
      PushAllCache(s, init);
      assert more == init + [o];
      FlatMapConcat(UseWrite, init, [o]);
      assert FlatMap(UseWrite, [o]) == UseWrite(o) + FlatMap(UseWrite, []);
      ReplayConcat(s.cache, TRACK_CACHE_MAX, UseWrites(init), UseWrite(o));
      if o.points.Some? {
        assert UseWrite(o)[..0] == [];
      }
    }
  }

  /**
   The cache after any run is the replay of its writes, and every track counted is written at that
   moment, hits included: from a cache grown the same way it holds the last 800 tracks by last use.
   */
  lemma {:induction false} CacheFollowsUse(
    earlier: seq<Entry<int, Points>>, infos: seq<TrackInfo>, endpoint: Endpoint, cache: TrackCache, events: seq<Event>)
    requires cache == Replay([], TRACK_CACHE_MAX, earlier) && Legal(Init(infos, endpoint, cache), events)
    ensures After(Init(infos, endpoint, cache), events).cache
      == Newest(LastWrites(earlier + RunWrites(infos, endpoint, cache, events)), 800)
  {
    CacheIsReplay(infos, endpoint, cache, events);
    ReplayConcat([], TRACK_CACHE_MAX, earlier, RunWrites(infos, endpoint, cache, events));
    CacheHoldsNewest(TRACK_CACHE_MAX, earlier + RunWrites(infos, endpoint, cache, events));
  }

  lemma {:induction false} CacheIsReplay(
    infos: seq<TrackInfo>, endpoint: Endpoint, cache: TrackCache, events: seq<Event>)
    requires Legal(Init(infos, endpoint, cache), events)
    ensures After(Init(infos, endpoint, cache), events).cache
      == Replay(cache, TRACK_CACHE_MAX, RunWrites(infos, endpoint, cache, events))
  {
    if events == [] {
      PushAllCache(Idle(endpoint, cache), CachedOutcomes(Idle(endpoint, cache), infos));
    } else {
      var init, e := events[..|events| - 1], events[|events| - 1];
      CacheIsReplay(infos, endpoint, cache, init);
      var s := After(Init(infos, endpoint, cache), init);
      StepWrites(s, e);
      ReplayConcat(cache, TRACK_CACHE_MAX, RunWrites(infos, endpoint, cache, init), Writes(s, e));
    }
  }

  lemma StepWrites(s: State, e: Event)
    requires Enabled(s, e)
    ensures Step(s, e).cache == Replay(s.cache, TRACK_CACHE_MAX, Writes(s, e))
  {
    var first: seq<Entry<int, Points>> :=
      match e
      case Fetched(c, i, Some(points)) => [Entry(s.workers[c].flying[i].id, points)]
      case _ => [];
    if first != [] {
      assert first[..0] == [];
    }
    assert FetchCache(s, e) == Replay(s.cache, TRACK_CACHE_MAX, first);
    PushAllCache(s.(cache := FetchCache(s, e)), Pushes(s, e));
    ReplayConcat(s.cache, TRACK_CACHE_MAX, first, UseWrites(Pushes(s, e)));
  }

  // ------------------------------------------------------------------ what is counted

  function Skips(outcomes: seq<Outcome>): nat {
    if outcomes == [] then 0
    else Skips(outcomes[..|outcomes| - 1]) + if outcomes[|outcomes| - 1].points.None? then 1 else 0
  }

  function TripsOf(outcomes: seq<Outcome>): seq<Trip> {
    FlatMap(TripOf, outcomes)
  }

  /** The counters and the trips are exactly those of `outcomes`. */
  ghost predicate Reflects(s: State, outcomes: seq<Outcome>) {
    s.loaded == |outcomes| && s.skipped == Skips(outcomes) && s.trips == TripsOf(outcomes)
  }

  lemma PushReflects(s: State, outcomes: seq<Outcome>, o: Outcome)
    requires Reflects(s, outcomes)
    ensures Reflects(PushResult(s, o), outcomes + [o])
  {
    FlatMapConcat(TripOf, outcomes, [o]);
    assert FlatMap(TripOf, [o]) == TripOf(o) + FlatMap(TripOf, []);
    assert (outcomes + [o])[..|outcomes|] == outcomes;
  }

  lemma {:induction false} PushAllReflects(s: State, outcomes: seq<Outcome>, more: seq<Outcome>)
    requires Reflects(s, outcomes)
    ensures Reflects(PushAll(s, more), outcomes + more)
  {
    if more == [] {
      assert outcomes + more == outcomes;
    } else {
      var init := more[..|more| - 1];
      PushAllReflects(s, outcomes, init);
      PushReflects(PushAll(s, init), outcomes + init, more[|more| - 1]);
      assert outcomes + more == (outcomes + init) + [more[|more| - 1]];
    }
  }

  lemma {:induction false} PushAllFrame(s: State, more: seq<Outcome>)
    ensures PushAll(s, more).chunks == s.chunks && PushAll(s, more).workers == s.workers
  {
    if more != [] {
      PushAllFrame(s, more[..|more| - 1]);
    }
  }

  /** At every moment `loaded`, `skipped` and `trips` are those of the results counted so far. */
  lemma {:induction false} CountersReflectOutcomes(
    infos: seq<TrackInfo>, endpoint: Endpoint, cache: TrackCache, events: seq<Event>)
    requires Legal(Init(infos, endpoint, cache), events)
    ensures Reflects(After(Init(infos, endpoint, cache), events), Outcomes(infos, endpoint, cache, events))
  {
    if events == [] {
      var s0 := Idle(endpoint, cache);
      PushAllReflects(s0, [], CachedOutcomes(s0, infos));
      assert [] + CachedOutcomes(s0, infos) == CachedOutcomes(s0, infos);
    } else {
      var init, e := events[..|events| - 1], events[|events| - 1];
      CountersReflectOutcomes(infos, endpoint, cache, init);
      var s := After(Init(infos, endpoint, cache), init);
      PushAllReflects(s.(cache := FetchCache(s, e)), Outcomes(infos, endpoint, cache, init), Pushes(s, e));
    }
  }

  // ------------------------------------------------------------------ every info is counted once

  function InfoOf(o: Outcome): TrackInfo { o.info }

  function InfosOf(outcomes: seq<Outcome>): seq<TrackInfo> {
    Map(InfoOf, outcomes)
  }

  lemma InfosOfConcat(a: seq<Outcome>, b: seq<Outcome>)
    ensures InfosOf(a + b) == InfosOf(a) + InfosOf(b)
  {
  }

  function OpenInfos(chunk: seq<TrackInfo>, w: Worker): seq<TrackInfo> {
    if w.Direct? then w.todo + w.flying + InfosOf(w.held) else chunk
  }

  function Opens(s: State): (r: seq<seq<TrackInfo>>)
    requires |s.chunks| == |s.workers|
    ensures |r| == |s.chunks| && forall c :: 0 <= c < |r| ==> r[c] == OpenInfos(s.chunks[c], s.workers[c])
  {
    seq(|s.chunks|, c requires 0 <= c < |s.chunks| => OpenInfos(s.chunks[c], s.workers[c]))
  }

  lemma {:induction false} AnswerPartition(chunk: seq<TrackInfo>, byId: map<int, Points>, failed: set<int>)
    ensures multiset(InfosOf(AnswerOutcomes(chunk, byId, failed))) + multiset(Missing(chunk, byId, failed)) == multiset(chunk)
  {
    if chunk != [] {
      var init, info := chunk[..|chunk| - 1], chunk[|chunk| - 1];
      assert chunk == init + [info];
      AnswerPartition(init, byId, failed);
      var got: seq<Outcome> := if Answered(info, byId, failed) then [Outcome(info, Some(byId[info.id]))] else [];
      var miss: seq<TrackInfo> := if Answered(info, byId, failed) then [] else [info];
      InfosOfConcat(AnswerOutcomes(init, byId, failed), got);
      assert InfosOf(got) + miss == [info];
      PartitionConcat(InfosOf(AnswerOutcomes(init, byId, failed)), Missing(init, byId, failed), init, InfosOf(got), miss, [info]);
    }
  }

  lemma {:induction false} CachedPartition(s: State, infos: seq<TrackInfo>)
    ensures multiset(InfosOf(CachedOutcomes(s, infos))) + multiset(Pending(s, infos)) == multiset(infos)
  {
    if infos != [] {
      var init, info := infos[..|infos| - 1], infos[|infos| - 1];
      assert infos == init + [info];
      CachedPartition(s, init);
      var before := CachedOutcomes(s, init);
      var cached := Get(PushAll(s, before).cache, info.id);
      var got: seq<Outcome> := if cached.Some? then [Outcome(info, cached)] else [];
      var miss: seq<TrackInfo> := if cached.None? then [info] else [];
      InfosOfConcat(before, got);
      assert InfosOf(got) + miss == [info];
      PartitionConcat(InfosOf(before), Pending(s, init), init, InfosOf(got), miss, [info]);
    }
  }

  lemma HoldKeepsOpen(todo: seq<TrackInfo>, others: seq<TrackInfo>, held: seq<Outcome>, i: nat, o: Outcome)
    requires i < |todo| && o.info == todo[i]
    ensures multiset(RemoveAt(todo, i) + others + InfosOf(held + [o])) == multiset(todo + others + InfosOf(held))
    ensures multiset(others + RemoveAt(todo, i) + InfosOf(held + [o])) == multiset(others + todo + InfosOf(held))
  {
    InfosOfConcat(held, [o]);
    assert InfosOf([o]) == [todo[i]];
  }

  lemma LaunchKeepsOpen(todo: seq<TrackInfo>, flying: seq<TrackInfo>, i: nat)
    requires i < |todo|
    ensures multiset(RemoveAt(todo, i) + (flying + [todo[i]])) == multiset(todo + flying)
  {
  }

  lemma ReleaseOpens(todo: seq<TrackInfo>, held: seq<Outcome>, i: nat)
    requires i < |held|
    ensures multiset(todo + InfosOf(held)) == multiset(todo + InfosOf(RemoveAt(held, i))) + multiset([held[i].info])
  {
    var r := RemoveAt(InfosOf(held), i);
    assert InfosOf(RemoveAt(held, i)) == r;
  }

  lemma FreshOpen(todo: seq<TrackInfo>)
    ensures OpenInfos([], Direct(todo, [], [])) == todo
  {
    assert todo + [] + InfosOf([]) == todo;
  }

  lemma AnswerCountsOpen(s: State, e: Event)
    requires Enabled(s, e) && e.Answer?
    ensures multiset(OpenInfos(s.chunks[e.c], s.workers[e.c]))
      == multiset(OpenInfos(s.chunks[e.c], NextWorker(s, e))) + multiset(InfosOf(Pushes(s, e)))
  {
    FreshOpen(Missing(s.chunks[e.c], e.byId, e.failed));
    AnswerPartition(s.chunks[e.c], e.byId, e.failed);
  }

  lemma ReleaseCountsOpen(s: State, e: Event)
    requires Enabled(s, e) && e.Release?
    ensures multiset(OpenInfos(s.chunks[e.c], s.workers[e.c]))
      == multiset(OpenInfos(s.chunks[e.c], NextWorker(s, e))) + multiset(InfosOf(Pushes(s, e)))
  {
    var w := s.workers[e.c];
    assert InfosOf([w.held[e.i]]) == [w.held[e.i].info];
    ReleaseOpens(w.todo + w.flying, w.held, e.i);
  }

  /** The other events count nothing and leave the open infos as they were. */
  lemma QuietKeepsOpen(s: State, e: Event)
    requires Enabled(s, e) && !e.Answer? && !e.Release?
    ensures multiset(OpenInfos(s.chunks[e.c], s.workers[e.c])) == multiset(OpenInfos(s.chunks[e.c], NextWorker(s, e)))
  {
    var w := s.workers[e.c];
    if e.Hit? {
      HoldKeepsOpen(w.todo, w.flying, w.held, e.i, Outcome(w.todo[e.i], Get(s.cache, w.todo[e.i].id)));
    } else if e.Fetched? {
      HoldKeepsOpen(w.flying, w.todo, w.held, e.i, Outcome(w.flying[e.i], e.points));
    } else if e.Launch? {
      LaunchKeepsOpen(w.todo, w.flying, e.i);
    } else {
      FreshOpen(s.chunks[e.c]);
    }
  }

  lemma StepCountsOpen(s: State, e: Event)
    requires Enabled(s, e)
    ensures multiset(OpenInfos(s.chunks[e.c], s.workers[e.c]))
      == multiset(OpenInfos(s.chunks[e.c], NextWorker(s, e))) + multiset(InfosOf(Pushes(s, e)))
  {
    if e.Answer? {
      AnswerCountsOpen(s, e);
    } else if e.Release? {
      ReleaseCountsOpen(s, e);
    } else {
      QuietKeepsOpen(s, e);
      assert InfosOf(Pushes(s, e)) == [];
    }
  }

  lemma OpensAfter(s: State, e: Event)
    requires Enabled(s, e)
    ensures |Step(s, e).workers| == |Step(s, e).chunks|
    ensures Opens(Step(s, e)) == Opens(s)[e.c := OpenInfos(s.chunks[e.c], NextWorker(s, e))]
  {
    PushAllFrame(s.(cache := FetchCache(s, e)), Pushes(s, e));
  }

  lemma StepConserves(s: State, e: Event)
    requires Enabled(s, e)
    ensures |Step(s, e).workers| == |Step(s, e).chunks|
    ensures multiset(Flatten(Opens(s))) == multiset(Flatten(Opens(Step(s, e)))) + multiset(InfosOf(Pushes(s, e)))
  {
    OpensAfter(s, e);
    var before, now := Opens(s), OpenInfos(s.chunks[e.c], NextWorker(s, e));
    StepCountsOpen(s, e);
    FlattenUpdate(before, e.c, now);
    CancelMultisets(multiset(Flatten(before)), multiset(before[e.c]), multiset(Flatten(before[e.c := now])), multiset(now),
                    multiset(InfosOf(Pushes(s, e))));
  }

  lemma InitConserves(infos: seq<TrackInfo>, endpoint: Endpoint, cache: TrackCache)
    ensures var s := Init(infos, endpoint, cache);
      && |s.workers| == |s.chunks|
      && multiset(InfosOf(CachedOutcomes(Idle(endpoint, cache), infos))) + multiset(Flatten(Opens(s))) == multiset(infos)
  {
    var s0, s := Idle(endpoint, cache), Init(infos, endpoint, cache);
    var pending := Pending(s0, infos);
    FreshOpens(infos, endpoint, cache);
    ChunksCover(pending, TRACK_BATCH_SIZE);
    assert Flatten([pending]) == pending + Flatten<TrackInfo>([]);
    CachedPartition(s0, infos);
  }

  /** Before anything is fetched, every chunk is open whole. */
  lemma FreshOpens(infos: seq<TrackInfo>, endpoint: Endpoint, cache: TrackCache)
    ensures Opens(Init(infos, endpoint, cache)) == Init(infos, endpoint, cache).chunks
  {
    FreshOpen(Pending(Idle(endpoint, cache), infos));
  }

  /** At every moment, the infos counted and the infos still open are together the infos of the load. */
  lemma {:induction false} InfosConserved(
    infos: seq<TrackInfo>, endpoint: Endpoint, cache: TrackCache, events: seq<Event>)
    requires Legal(Init(infos, endpoint, cache), events)
    ensures var s := After(Init(infos, endpoint, cache), events);
      && |s.workers| == |s.chunks|
      && multiset(InfosOf(Outcomes(infos, endpoint, cache, events))) + multiset(Flatten(Opens(s))) == multiset(infos)
  {
    if events == [] {
      InitConserves(infos, endpoint, cache);
    } else {
      var init, e := events[..|events| - 1], events[|events| - 1];
      InfosConserved(infos, endpoint, cache, init);
      var s := After(Init(infos, endpoint, cache), init);
      var before := Outcomes(infos, endpoint, cache, init);
      StepConserves(s, e);
      InfosOfConcat(before, Pushes(s, e));
      MoveMultisets(multiset(InfosOf(before)), multiset(Flatten(Opens(s))), multiset(infos), multiset(InfosOf(Pushes(s, e))),
                    multiset(Flatten(Opens(Step(s, e)))));
    }
  }

  /**
   On return each info has been counted exactly once, as a trip, as empty or as skipped, for every
   starting endpoint state and every interleaving.
   */
  lemma EveryInfoCountedOnce(infos: seq<TrackInfo>, endpoint: Endpoint, cache: TrackCache, events: seq<Event>)
    requires Legal(Init(infos, endpoint, cache), events) && Complete(After(Init(infos, endpoint, cache), events))
    ensures var s, done := After(Init(infos, endpoint, cache), events), Outcomes(infos, endpoint, cache, events);
      && multiset(InfosOf(done)) == multiset(infos)
      && s.loaded == |infos| && s.skipped == Skips(done) && s.trips == TripsOf(done)
  {
    CountersReflectOutcomes(infos, endpoint, cache, events);
    InfosConserved(infos, endpoint, cache, events);
    var s := After(Init(infos, endpoint, cache), events);
    FreshOpen([]);
    FlattenEmpty(Opens(s));
    PermutationSize(InfosOf(Outcomes(infos, endpoint, cache, events)), infos);
  }

  // ------------------------------------------------------------------ which tracks are skipped

  function IsSkip(o: Outcome): seq<TrackInfo> {
    if o.points.None? then [o.info] else []
  }

  function Skipped(outcomes: seq<Outcome>): seq<TrackInfo> {
    FlatMap(IsSkip, outcomes)
  }

  /** The infos whose direct fetch failed during the run. */
  function FailedFetches(s: State, events: seq<Event>): seq<TrackInfo>
    requires Legal(s, events)
  {
    if events == [] then []
    else
      var init, e := events[..|events| - 1], events[|events| - 1];
      FailedFetches(s, init)
      + if e.Fetched? && e.points.None? then [After(s, init).workers[e.c].flying[e.i]] else []
  }

  function HeldSkips(w: Worker): seq<TrackInfo> {
    if w.Direct? then Skipped(w.held) else []
  }

  function AllHeldSkips(s: State): (r: seq<seq<TrackInfo>>)
    ensures |r| == |s.workers| && forall c :: 0 <= c < |r| ==> r[c] == HeldSkips(s.workers[c])
  {
    seq(|s.workers|, c requires 0 <= c < |s.workers| => HeldSkips(s.workers[c]))
  }

  lemma SkippedConcat(a: seq<Outcome>, b: seq<Outcome>)
    ensures Skipped(a + b) == Skipped(a) + Skipped(b)
  {
    FlatMapConcat(IsSkip, a, b);
  }

  lemma SkippedOne(o: Outcome)
    ensures Skipped([o]) == IsSkip(o)
  {
    assert FlatMap(IsSkip, [o]) == IsSkip(o) + FlatMap(IsSkip, []);
  }

  lemma {:induction false} AnswersNotSkipped(chunk: seq<TrackInfo>, byId: map<int, Points>, failed: set<int>)
    ensures Skipped(AnswerOutcomes(chunk, byId, failed)) == []
  {
    if chunk != [] {
      var init, info := chunk[..|chunk| - 1], chunk[|chunk| - 1];
      AnswersNotSkipped(init, byId, failed);
      var got: seq<Outcome> := if Answered(info, byId, failed) then [Outcome(info, Some(byId[info.id]))] else [];
      SkippedConcat(AnswerOutcomes(init, byId, failed), got);
      if got != [] {
        SkippedOne(got[0]);
      }
    }
  }

  lemma {:induction false} CachedNotSkipped(s: State, infos: seq<TrackInfo>)
    ensures Skipped(CachedOutcomes(s, infos)) == []
  {
    if infos != [] {
      var init, info := infos[..|infos| - 1], infos[|infos| - 1];
      CachedNotSkipped(s, init);
      var cached := Get(PushAll(s, CachedOutcomes(s, init)).cache, info.id);
      var got: seq<Outcome> := if cached.Some? then [Outcome(info, cached)] else [];
      SkippedConcat(CachedOutcomes(s, init), got);
      if got != [] {
        SkippedOne(got[0]);
      }
    }
  }

  /** The failure an event adds to the run. */
  function NewFailure(s: State, e: Event): seq<TrackInfo>
    requires Enabled(s, e)
  {
    if e.Fetched? && e.points.None? then [s.workers[e.c].flying[e.i]] else []
  }

  lemma ReleaseSkips(held: seq<Outcome>, i: nat)
    requires i < |held|
    ensures multiset(Skipped(held)) == multiset(Skipped(RemoveAt(held, i))) + multiset(Skipped([held[i]]))
  {
    assert held == held[..i] + ([held[i]] + held[i + 1..]);
    SkippedConcat(held[..i], [held[i]] + held[i + 1..]);
    SkippedConcat([held[i]], held[i + 1..]);
    SkippedConcat(held[..i], held[i + 1..]);
  }

  lemma HoldSkips(held: seq<Outcome>, o: Outcome)
    ensures multiset(Skipped(held + [o])) == multiset(Skipped(held)) + multiset(if o.points.None? then [o.info] else [])
  {
    SkippedConcat(held, [o]);
    SkippedOne(o);
  }

  lemma HeldMoves(s: State, e: Event)
    requires Enabled(s, e) && (e.Hit? || e.Fetched? || e.Release?)
    ensures multiset(HeldSkips(s.workers[e.c])) + multiset(NewFailure(s, e))
      == multiset(HeldSkips(NextWorker(s, e))) + multiset(Skipped(Pushes(s, e)))
  {
    var w := s.workers[e.c];
    if e.Hit? {
      HoldSkips(w.held, Outcome(w.todo[e.i], Get(s.cache, w.todo[e.i].id)));
    } else if e.Fetched? {
      HoldSkips(w.held, Outcome(w.flying[e.i], e.points));
    } else {
      ReleaseSkips(w.held, e.i);
    }
  }

  /** A failure waits in the worker until it is counted. */
  lemma StepMovesFailures(s: State, e: Event)
    requires Enabled(s, e)
    ensures multiset(HeldSkips(s.workers[e.c])) + multiset(NewFailure(s, e))
      == multiset(HeldSkips(NextWorker(s, e))) + multiset(Skipped(Pushes(s, e)))
  {
    if e.Hit? || e.Fetched? || e.Release? {
      HeldMoves(s, e);
    } else if e.Answer? {
      AnswersNotSkipped(s.chunks[e.c], e.byId, e.failed);
    }
  }

  lemma FailuresBalance<T>(total: multiset<T>, counted: multiset<T>, held: multiset<T>, one: multiset<T>,
                           held': multiset<T>, one': multiset<T>, new': multiset<T>, more: multiset<T>)
    requires total == counted + held && held' + one == held + one' && one + new' == one' + more
    ensures total + new' == (counted + more) + held'
  {
    forall x ensures (total + new')[x] == ((counted + more) + held')[x] {
      assert (held' + one)[x] == (held + one')[x];
      assert (one + new')[x] == (one' + more)[x];
    }
  }

  lemma HeldAfterStep(s: State, e: Event)
    requires Enabled(s, e)
    ensures AllHeldSkips(Step(s, e)) == AllHeldSkips(s)[e.c := HeldSkips(NextWorker(s, e))]
  {
    var now, next := AllHeldSkips(s)[e.c := HeldSkips(NextWorker(s, e))], AllHeldSkips(Step(s, e));
    forall c | 0 <= c < |next| ensures next[c] == now[c] {
      assert next[c] == HeldSkips(Step(s, e).workers[c]);
    }
  }

  lemma FailuresStep(failed: seq<TrackInfo>, done: seq<Outcome>, s: State, e: Event)
    requires Enabled(s, e)
    requires multiset(failed) == multiset(Skipped(done)) + multiset(Flatten(AllHeldSkips(s)))
    ensures multiset(failed + NewFailure(s, e))
      == multiset(Skipped(done + Pushes(s, e))) + multiset(Flatten(AllHeldSkips(Step(s, e))))
  {
    var before, now := AllHeldSkips(s), HeldSkips(NextWorker(s, e));
    HeldAfterStep(s, e);
    StepMovesFailures(s, e);
    FlattenUpdate(before, e.c, now);
    SkippedConcat(done, Pushes(s, e));
    FailuresBalance(multiset(failed), multiset(Skipped(done)), multiset(Flatten(before)), multiset(before[e.c]),
                    multiset(Flatten(before[e.c := now])), multiset(now), multiset(NewFailure(s, e)),
                    multiset(Skipped(Pushes(s, e))));
  }

  /** Every failed direct fetch is either counted as skipped or about to be, and nothing else is. */
  lemma {:induction false} FailuresConserved(
    infos: seq<TrackInfo>, endpoint: Endpoint, cache: TrackCache, events: seq<Event>)
    requires Legal(Init(infos, endpoint, cache), events)
    ensures var s0 := Init(infos, endpoint, cache);
      multiset(FailedFetches(s0, events))
      == multiset(Skipped(Outcomes(infos, endpoint, cache, events))) + multiset(Flatten(AllHeldSkips(After(s0, events))))
  {
    var s0 := Init(infos, endpoint, cache);
    if events == [] {
      CachedNotSkipped(Idle(endpoint, cache), infos);
      FlattenEmpty(AllHeldSkips(s0));
    } else {
      var init, e := events[..|events| - 1], events[|events| - 1];
      FailuresConserved(infos, endpoint, cache, init);
      FailuresStep(FailedFetches(s0, init), Outcomes(infos, endpoint, cache, init), After(s0, init), e);
    }
  }

  /** The worker of chunk `c` started a direct fetch of the info when its track was not cached. */
  ghost predicate Launched(s0: State, events: seq<Event>, c: nat, info: TrackInfo)
    requires Legal(s0, events)
  {
    events != [] &&
    var init, e := events[..|events| - 1], events[|events| - 1];
    Launched(s0, init, c, info)
    || (e.Launch? && e.c == c && After(s0, init).workers[c].todo[e.i] == info && Get(After(s0, init).cache, info.id).None?)
  }

  /** No answer to the batch of chunk `c` has returned the info. */
  ghost predicate Unreturned(events: seq<Event>, c: nat, info: TrackInfo) {
    forall i :: 0 <= i < |events| && events[i].Answer? && events[i].c == c ==> !Answered(info, events[i].byId, events[i].failed)
  }

  /** A direct fetch of the info failed that was needed: not cached when it started, not returned by its batch. */
  ghost predicate FailedWhenNeeded(s0: State, events: seq<Event>, info: TrackInfo)
    requires Legal(s0, events)
  {
    events != [] &&
    var init, e := events[..|events| - 1], events[|events| - 1];
    FailedWhenNeeded(s0, init, info)
    || (e.Fetched? && e.points.None? && After(s0, init).workers[e.c].flying[e.i] == info
        && Launched(s0, init, e.c, info) && Unreturned(init, e.c, info))
  }

  /** Where the infos of a worker come from. */
  ghost predicate Traced(s0: State, events: seq<Event>, c: nat)
    requires Legal(s0, events) && c < |After(s0, events).workers|
  {
    var w := After(s0, events).workers[c];
    if w.Direct? then
      && (forall info :: info in w.todo || info in w.flying ==> Unreturned(events, c, info))
      && (forall info :: info in w.flying ==> Launched(s0, events, c, info))
    else forall i :: 0 <= i < |events| ==> !(events[i].Answer? && events[i].c == c)
  }

  lemma {:induction false} MissingUnanswered(chunk: seq<TrackInfo>, byId: map<int, Points>, failed: set<int>)
    ensures forall info :: info in Missing(chunk, byId, failed) ==> !Answered(info, byId, failed)
  {
    if chunk != [] {
      MissingUnanswered(chunk[..|chunk| - 1], byId, failed);
    }
  }

  lemma UnreturnedSnoc(events: seq<Event>, e: Event, c: nat, info: TrackInfo)
    requires Unreturned(events, c, info) && (e.Answer? && e.c == c ==> !Answered(info, e.byId, e.failed))
    ensures Unreturned(events + [e], c, info)
  {
  }

  lemma OthersTraced(s0: State, events: seq<Event>, e: Event, c: nat)
    requires Legal(s0, events + [e]) && (events + [e])[..|events|] == events
    requires c < |After(s0, events).workers| && e.c != c && Traced(s0, events, c)
    ensures Traced(s0, events + [e], c)
  {
    var w := After(s0, events).workers[c];
    assert After(s0, events + [e]).workers[c] == w;
    if w.Direct? {
      forall info | info in w.todo || info in w.flying ensures Unreturned(events + [e], c, info) {
        UnreturnedSnoc(events, e, c, info);
      }
    }
  }

  lemma OwnTraced(s0: State, events: seq<Event>, e: Event)
    requires Legal(s0, events + [e]) && (events + [e])[..|events|] == events
    requires e.c < |After(s0, events).workers| && Traced(s0, events, e.c)
    ensures Traced(s0, events + [e], e.c)
  {
    var s := After(s0, events);
    var w, w' := s.workers[e.c], NextWorker(s, e);
    assert After(s0, events + [e]).workers[e.c] == w';
    if w'.Direct? {
      if e.Answer? {
        MissingUnanswered(s.chunks[e.c], e.byId, e.failed);
      }
      forall info | info in w'.todo || info in w'.flying ensures Unreturned(events + [e], e.c, info) {
        UnreturnedSnoc(events, e, e.c, info);
      }
    }
  }

  lemma {:induction false} AllTraced(infos: seq<TrackInfo>, endpoint: Endpoint, cache: TrackCache, events: seq<Event>)
    requires Legal(Init(infos, endpoint, cache), events)
    ensures var s0 := Init(infos, endpoint, cache);
      forall c :: 0 <= c < |After(s0, events).workers| ==> Traced(s0, events, c)
  {
    var s0 := Init(infos, endpoint, cache);
    if events != [] {
      var init, e := events[..|events| - 1], events[|events| - 1];
      AllTraced(infos, endpoint, cache, init);
      assert init + [e] == events;
      forall c | 0 <= c < |After(s0, events).workers| ensures Traced(s0, events, c) {
        if c == e.c {
          OwnTraced(s0, init, e);
        } else {
          OthersTraced(s0, init, e, c);
        }
      }
    }
  }

  lemma {:induction false} FailuresWereNeeded(infos: seq<TrackInfo>, endpoint: Endpoint, cache: TrackCache, events: seq<Event>)
    requires Legal(Init(infos, endpoint, cache), events)
    ensures var s0 := Init(infos, endpoint, cache);
      forall info :: info in FailedFetches(s0, events) ==> FailedWhenNeeded(s0, events, info)
  {
    var s0 := Init(infos, endpoint, cache);
    if events != [] {
      var init, e := events[..|events| - 1], events[|events| - 1];
      FailuresWereNeeded(infos, endpoint, cache, init);
      AllTraced(infos, endpoint, cache, init);
      assert Traced(s0, init, e.c);
    }
  }

  /**
   The skipped tracks are exactly the failed direct fetches, and each of those was needed: when it
   started the track was not cached, and its batch, if answered, had not returned it.
   */
  lemma SkippedExactlyFailedFetches(infos: seq<TrackInfo>, endpoint: Endpoint, cache: TrackCache, events: seq<Event>)
    requires Legal(Init(infos, endpoint, cache), events) && Complete(After(Init(infos, endpoint, cache), events))
    ensures multiset(Skipped(Outcomes(infos, endpoint, cache, events)))
      == multiset(FailedFetches(Init(infos, endpoint, cache), events))
    ensures forall info :: info in Skipped(Outcomes(infos, endpoint, cache, events)) ==>
      FailedWhenNeeded(Init(infos, endpoint, cache), events, info)
  {
    FailuresConserved(infos, endpoint, cache, events);
    FlattenEmpty(AllHeldSkips(After(Init(infos, endpoint, cache), events)));
    FailuresWereNeeded(infos, endpoint, cache, events);
    var skipped, failed := Skipped(Outcomes(infos, endpoint, cache, events)), FailedFetches(Init(infos, endpoint, cache), events);
    PermutationSize(skipped, failed);
    forall info | info in skipped ensures FailedWhenNeeded(Init(infos, endpoint, cache), events, info) {
      assert info in Elements(failed);
    }
  }

  // ------------------------------------------------------------------ against a fixed source

  type Source = int -> Option<Points>

  ghost predicate HonestEvent(source: Source, s: State, e: Event)
    requires Enabled(s, e)
  {
    match e
    case Answer(_, byId, failed) => forall id :: id in byId && id !in failed ==> source(id) == Some(byId[id])
    case Fetched(c, i, points) => points == source(s.workers[c].flying[i].id)
    case _ => true
  }

  ghost predicate HonestRun(infos: seq<TrackInfo>, endpoint: Endpoint, cache: TrackCache, source: Source, events: seq<Event>) {
    var s0 := Init(infos, endpoint, cache);
    Legal(s0, events) && Faithful(cache, source) &&
    (events == [] || (HonestRun(infos, endpoint, cache, source, events[..|events| - 1]) &&
      HonestEvent(source, After(s0, events[..|events| - 1]), events[|events| - 1])))
  }

  ghost predicate Honest(source: Source, outcomes: seq<Outcome>) {
    forall i :: 0 <= i < |outcomes| ==> outcomes[i].points == source(outcomes[i].info.id)
  }

  ghost predicate HonestState(source: Source, s: State) {
    && Faithful(s.cache, source)
    && forall c :: 0 <= c < |s.workers| && s.workers[c].Direct? ==> Honest(source, s.workers[c].held)
  }

  lemma {:induction false} PushAllFaithful(source: Source, s: State, more: seq<Outcome>)
    requires Faithful(s.cache, source) && Honest(source, more)
    ensures Faithful(PushAll(s, more).cache, source)
  {
    if more != [] {
      var o := more[|more| - 1];
      PushAllFaithful(source, s, more[..|more| - 1]);
      if o.points.Some? {
        RememberFaithful(PushAll(s, more[..|more| - 1]).cache, TRACK_CACHE_MAX, o.info.id, o.points.value, source);
      }
    }
  }

  lemma {:induction false} CachedHonest(source: Source, s: State, infos: seq<TrackInfo>)
    requires Faithful(s.cache, source)
    ensures Honest(source, CachedOutcomes(s, infos))
  {
    if infos != [] {
      CachedHonest(source, s, infos[..|infos| - 1]);
      PushAllFaithful(source, s, CachedOutcomes(s, infos[..|infos| - 1]));
    }
  }

  lemma {:induction false} AnswerHonest(source: Source, chunk: seq<TrackInfo>, byId: map<int, Points>, failed: set<int>)
    requires forall id :: id in byId && id !in failed ==> source(id) == Some(byId[id])
    ensures Honest(source, AnswerOutcomes(chunk, byId, failed))
  {
    if chunk != [] {
      AnswerHonest(source, chunk[..|chunk| - 1], byId, failed);
    }
  }

  lemma HonestStep(source: Source, s: State, e: Event)
    requires Enabled(s, e) && HonestEvent(source, s, e) && HonestState(source, s)
    ensures HonestState(source, Step(s, e)) && Honest(source, Pushes(s, e))
  {
    match e {
      case Answer(c, byId, failed) => AnswerHonest(source, s.chunks[c], byId, failed);
      case Fetched(c, i, points) =>
        if points.Some? {
          RememberFaithful(s.cache, TRACK_CACHE_MAX, s.workers[c].flying[i].id, points.value, source);
        }
      case _ =>
    }
    PushAllFaithful(source, s.(cache := FetchCache(s, e)), Pushes(s, e));
    PushAllFrame(s.(cache := FetchCache(s, e)), Pushes(s, e));
    assert Honest(source, if NextWorker(s, e).Direct? then NextWorker(s, e).held else []);
  }

  lemma {:induction false} RunHonest(
    infos: seq<TrackInfo>, endpoint: Endpoint, cache: TrackCache, source: Source, events: seq<Event>)
    requires HonestRun(infos, endpoint, cache, source, events)
    ensures HonestState(source, After(Init(infos, endpoint, cache), events))
    ensures Honest(source, Outcomes(infos, endpoint, cache, events))
  {
    if events == [] {
      CachedHonest(source, Idle(endpoint, cache), infos);
      PushAllFaithful(source, Idle(endpoint, cache), CachedOutcomes(Idle(endpoint, cache), infos));
    } else {
      var init, e := events[..|events| - 1], events[|events| - 1];
      RunHonest(infos, endpoint, cache, source, init);
      HonestStep(source, After(Init(infos, endpoint, cache), init), e);
    }
  }

  /** The naive loader: fetch each track directly. */
  function NaiveOutcome(source: Source): TrackInfo -> Outcome {
    (info: TrackInfo) => Outcome(info, source(info.id))
  }

  function NaiveTrips(source: Source, infos: seq<TrackInfo>): seq<Trip> {
    TripsOf(Map(NaiveOutcome(source), infos))
  }

  function NaiveSkips(source: Source, infos: seq<TrackInfo>): nat {
    |Skipped(Map(NaiveOutcome(source), infos))|
  }

  lemma {:induction false} SkipsCount(outcomes: seq<Outcome>)
    ensures Skips(outcomes) == |Skipped(outcomes)|
  {
    if outcomes != [] {
      var init, o := outcomes[..|outcomes| - 1], outcomes[|outcomes| - 1];
      SkipsCount(init);
      assert outcomes == init + [o];
      SkippedConcat(init, [o]);
      SkippedOne(o);
    }
  }

  /**
   The cached and batched loader refines the naive one for every endpoint state and interleaving:
   the same multiset of trips, and as many skipped as the naive loader would skip.
   */
  lemma RefinesNaiveLoader(
    infos: seq<TrackInfo>, endpoint: Endpoint, cache: TrackCache, source: Source, events: seq<Event>)
    requires HonestRun(infos, endpoint, cache, source, events)
    requires Complete(After(Init(infos, endpoint, cache), events))
    ensures var s := After(Init(infos, endpoint, cache), events);
      && multiset(s.trips) == multiset(NaiveTrips(source, infos))
      && s.skipped == NaiveSkips(source, infos)
  {
    EveryInfoCountedOnce(infos, endpoint, cache, events);
    RunHonest(infos, endpoint, cache, source, events);
    var done := Outcomes(infos, endpoint, cache, events);
    var naive := Map(NaiveOutcome(source), infos);
    MapPermutes(NaiveOutcome(source), InfosOf(done), infos);
    assert Map(NaiveOutcome(source), InfosOf(done)) == done;
    FlatMapPermutes(TripOf, done, naive);
    FlatMapPermutes(IsSkip, done, naive);
    PermutationSize(Skipped(done), Skipped(naive));
    SkipsCount(done);
  }
}
