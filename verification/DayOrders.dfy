/**
 Which orders of the days the pools allow: chunks are started in turn, a load that was not given up can
 always be brought to its end, and any day of the first eight chunks can be the first to arrive.
 */
module DayOrders {
  import opened Seqs
  import opened BoundedCache
  import opened Ndjson
  import opened UserDays
  import opened DayLoader
  import opened DayLoaderProofs

  // ------------------------------------------------------------------ the runners of the pool

  lemma {:induction false} BusyBound(workers: seq<Worker>, n: nat)
    requires n <= |workers| && forall i :: n <= i < |workers| ==> Idle(workers[i])
    ensures Busy(workers) <= n
  {
    if workers != [] {
      BusyBound(workers[..|workers| - 1], if n == |workers| then n - 1 else n);
    }
  }

  function Taken(w: Worker): nat {
    if Idle(w) then 0 else 1
  }

  lemma {:induction false} BusyUpdate(workers: seq<Worker>, c: nat, w: Worker)
    requires c < |workers|
    ensures Busy(workers[c := w]) + Taken(workers[c]) == Busy(workers) + Taken(w)
  {
    var n := |workers| - 1;
    if c < n {
      BusyUpdate(workers[..n], c, w);
      assert workers[c := w][..n] == workers[..n][c := w];
    } else {
      assert workers[c := w][..n] == workers[..n];
    }
  }

  /** Chunks are started in turn, at most eight are at work, and a runner is gone only when the load is given up. */
  ghost predicate InTurn(s: State) {
    && Busy(s.workers) <= TRACK_BATCH_BROWSER
    && (forall i, j :: 0 <= i < j < |s.workers| && s.workers[i].Waiting? ==> s.workers[j].Waiting?)
    && (forall i :: 0 <= i < |s.workers| && s.workers[i].Gone? ==> s.rejected)
  }

  lemma StepInTurn(s: State, e: Event)
    requires Enabled(s, e) && InTurn(s)
    ensures InTurn(Step(s, e))
  {
    BusyUpdate(s.workers, e.c, NextWorker(s, e));
    var next := Step(s, e).workers;
    forall i, j | 0 <= i < j < |next| && next[i].Waiting? ensures next[j].Waiting? {
      assert s.workers[i].Waiting? && s.workers[j].Waiting?;
    }
  }

  lemma {:induction false} AlwaysInTurn(load: Load, events: seq<Event>)
    requires Legal(Init(load), events)
    ensures InTurn(After(Init(load), events))
  {
    if events == [] {
      if load.useBatch {
        BusyBound(Init(load).workers, 0);
      } else {
        BusyBound(Init(load).workers, 1);
      }
    } else {
      AlwaysInTurn(load, events[..|events| - 1]);
      StepInTurn(After(Init(load), events[..|events| - 1]), events[|events| - 1]);
    }
  }

  lemma {:induction false} BusyFront(workers: seq<Worker>, n: nat)
    requires n <= |workers| && forall i :: 0 <= i < n ==> !Idle(workers[i])
    ensures Busy(workers) >= n
  {
    if workers != [] {
      BusyFront(workers[..|workers| - 1], if n == |workers| then n - 1 else n);
    }
  }

  /** Some chunk before `c` is finished. */
  ghost predicate EarlierDone(workers: seq<Worker>, c: nat)
    requires c <= |workers|
  {
    exists i :: 0 <= i < c && workers[i] == Direct([])
  }

  ghost predicate LateWait(workers: seq<Worker>) {
    forall c :: TRACK_BATCH_BROWSER <= c < |workers| && !workers[c].Waiting? ==> EarlierDone(workers, c)
  }

  lemma StepLateWait(s: State, e: Event)
    requires Enabled(s, e) && LateWait(s.workers)
    ensures LateWait(Step(s, e).workers)
  {
    var next := Step(s, e).workers;
    forall c | TRACK_BATCH_BROWSER <= c < |next| && !next[c].Waiting? ensures EarlierDone(next, c) {
      if s.workers[c].Waiting? {
        if !EarlierDone(s.workers, c) {
          BusyFront(s.workers, c);
        }
      }
      assert EarlierDone(s.workers, c);
      var i :| 0 <= i < c && s.workers[i] == Direct([]);
      assert next[i] == Direct([]);
    }
  }

  /** A chunk behind the first eight is started only when an earlier one is finished, so none of its days comes first. */
  lemma {:induction false} LateChunksWait(load: Load, events: seq<Event>)
    requires Legal(Init(load), events)
    ensures LateWait(After(Init(load), events).workers)
  {
    if events != [] {
      LateChunksWait(load, events[..|events| - 1]);
      StepLateWait(After(Init(load), events[..|events| - 1]), events[|events| - 1]);
    }
  }

  // ------------------------------------------------------------------ every load can be finished

  ghost predicate Finished(load: Load, source: Source, events: seq<Event>) {
    HonestRun(load, source, events) && Complete(After(Init(load), events))
  }

  lemma OneMore(load: Load, source: Source, events: seq<Event>, e: Event)
    requires HonestRun(load, source, events)
    requires var s := After(Init(load), events); Enabled(s, e) && HonestEvent(source, s, e)
    ensures HonestRun(load, source, events + [e])
    ensures After(Init(load), events + [e]) == Step(After(Init(load), events), e)
    ensures Outcomes(load, events + [e]) == Outcomes(load, events) + Settles(After(Init(load), events), e)
  {
    assert (events + [e])[..|events|] == events;
  }

  /** `events` go on after `before`: what was settled stays settled, in its order. */
  ghost predicate Continues(load: Load, source: Source, before: seq<Event>, events: seq<Event>) {
    HonestRun(load, source, before) && HonestRun(load, source, events) && Outcomes(load, before) <= Outcomes(load, events)
  }

  /** A chunk's direct fetches, one after the other. */
  lemma {:induction false} FetchRest(load: Load, source: Source, before: seq<Event>, c: nat) returns (events: seq<Event>)
    requires HonestRun(load, source, before)
    requires var s := After(Init(load), before); WellFormed(s) && c < |s.workers| && s.workers[c].Direct?
    ensures Continues(load, source, before, events)
    ensures var s, t := After(Init(load), before), After(Init(load), events);
      t.workers == s.workers[c := Direct([])] && t.chunks == s.chunks && t.rejected == s.rejected
    decreases |After(Init(load), before).workers[c].todo|
  {
    var s := After(Init(load), before);
    var todo := s.workers[c].todo;
    if todo == [] {
      events := before;
    } else {
      var e := Fetched(c, 0, source(todo[0].key));
      OneMore(load, source, before, e);
      events := FetchRest(load, source, before + [e], c);
    }
  }

  /** The batch of a chunk at work breaks, and its days are fetched directly. */
  lemma FinishChunk(load: Load, source: Source, before: seq<Event>, c: nat) returns (events: seq<Event>)
    requires HonestRun(load, source, before)
    requires var s := After(Init(load), before);
      WellFormed(s) && c < |s.workers| && !s.workers[c].Waiting? && !s.workers[c].Gone?
    ensures Continues(load, source, before, events)
    ensures var s, t := After(Init(load), before), After(Init(load), events);
      t.workers == s.workers[c := Direct([])] && t.chunks == s.chunks && t.rejected == s.rejected
  {
    var s := After(Init(load), before);
    if s.workers[c].Direct? {
      events := FetchRest(load, source, before, c);
    } else {
      OneMore(load, source, before, Break(c));
      events := FetchRest(load, source, before + [Break(c)], c);
      assert s.workers[c := Direct(s.chunks[c])][c := Direct([])] == s.workers[c := Direct([])];
    }
  }

  /** The first `c` chunks are finished. */
  ghost predicate DoneTo(s: State, c: nat) {
    WellFormed(s) && !s.rejected && c <= |s.workers| && forall i :: 0 <= i < c ==> s.workers[i] == Direct([])
  }

  lemma MayStartNext(s: State, c: nat)
    requires DoneTo(s, c) && c < |s.workers| && InTurn(s) && s.workers[c].Waiting?
    ensures Enabled(s, Start(c))
  {
    forall i | 0 <= i < |s.workers| ensures Idle(s.workers[i]) {
      if i > c {
        assert s.workers[i].Waiting?;
      }
    }
    BusyBound(s.workers, 0);
  }

  /** The next chunk is started if it still waits, and finished. */
  lemma FinishNext(load: Load, source: Source, before: seq<Event>, c: nat) returns (events: seq<Event>)
    requires HonestRun(load, source, before) && DoneTo(After(Init(load), before), c) && c < |After(Init(load), before).workers|
    ensures Continues(load, source, before, events) && DoneTo(After(Init(load), events), c + 1)
    ensures |After(Init(load), events).workers| == |After(Init(load), before).workers|
  {
    var s := After(Init(load), before);
    AlwaysInTurn(load, before);
    var started := before;
    if s.workers[c].Waiting? {
      MayStartNext(s, c);
      OneMore(load, source, before, Start(c));
      started := before + [Start(c)];
    }
    events := FinishChunk(load, source, started, c);
  }

  /** A load that was not given up can be brought to its end. */
  lemma {:induction false} FinishFrom(load: Load, source: Source, before: seq<Event>, c: nat) returns (events: seq<Event>)
    requires HonestRun(load, source, before) && DoneTo(After(Init(load), before), c)
    ensures Continues(load, source, before, events) && Finished(load, source, events)
    decreases |After(Init(load), before).workers| - c
  {
    if c == |After(Init(load), before).workers| {
      events := before;
    } else {
      var done := FinishNext(load, source, before, c);
      events := FinishFrom(load, source, done, c + 1);
    }
  }

  lemma FinishRun(load: Load, source: Source, before: seq<Event>) returns (events: seq<Event>)
    requires HonestRun(load, source, before) && !After(Init(load), before).rejected
    ensures Continues(load, source, before, events) && Finished(load, source, events)
  {
    WellFormedAlways(load, before);
    events := FinishFrom(load, source, before, 0);
  }

  // ------------------------------------------------------------------ any day of the first eight chunks can come first

  /** The days still to be fetched that a chunk of the first eight holds. */
  const FIRST_EIGHT := TRACK_BATCH_BROWSER * USER_DAY_BATCH_SIZE

  /** A key belongs to one vehicle, as the loader's keys do. */
  ghost predicate KeysTellVehicles(jobs: seq<Job>) {
    forall a, b :: a in jobs && b in jobs && a.key == b.key ==> a.userId == b.userId
  }

  lemma JobsTellVehicles(userIds: seq<nat>, dates: seq<string>)
    ensures KeysTellVehicles(UserDayJobs(userIds, dates))
  {
    var jobs := UserDayJobs(userIds, dates);
    JobsAre(userIds, dates);
    forall a, b | a in jobs && b in jobs && a.key == b.key ensures a.userId == b.userId {
      DayCacheKeyInjective(a.userId, a.date, b.userId, b.date);
    }
  }

  /** Where an item is among the chunks. */
  lemma {:induction false} ChunkOf<T>(items: seq<T>, size: nat, k: nat) returns (c: nat, p: nat)
    requires size > 0 && k < |items|
    ensures c < |Chunks(items, size)| && p < |Chunks(items, size)[c]| && Chunks(items, size)[c][p] == items[k]
    ensures c * size <= k
    decreases |items|
  {
    if |items| <= size || k < size {
      c, p := 0, k;
    } else {
      var d, q := ChunkOf(items[size..], size, k - size);
      c, p := d + 1, q;
      assert c * size == d * size + size;
    }
  }

  /** The first `n` chunks have been started and nothing else has happened. */
  ghost predicate Opened(s: State, n: nat) {
    WellFormed(s) && n <= |s.workers| && !s.rejected
    && (forall i :: 0 <= i < n ==> s.workers[i] == Reading([]))
    && forall i :: n <= i < |s.workers| ==> s.workers[i].Waiting?
  }

  lemma OpenNext(s: State, n: nat)
    requires Opened(s, n) && n < |s.workers| && n < TRACK_BATCH_BROWSER
    ensures Enabled(s, Start(n)) && Opened(Step(s, Start(n)), n + 1)
  {
    BusyBound(s.workers, n);
  }

  lemma NoneOpened(load: Load)
    requires load.useBatch
    ensures Opened(Init(load), 0)
  {
  }

  lemma {:induction false} OpenChunks(load: Load, source: Source, n: nat) returns (events: seq<Event>)
    requires load.useBatch && Faithful(load.cache, source)
    requires n <= |Init(load).chunks| && n <= TRACK_BATCH_BROWSER
    ensures HonestRun(load, source, events) && Outcomes(load, events) == SeedOutcomes(load.cache, load.jobs)
    ensures Opened(After(Init(load), events), n)
  {
    if n == 0 {
      events := [];
      NoneOpened(load);
    } else {
      var before := OpenChunks(load, source, n - 1);
      WellFormedAlways(load, before);
      OpenNext(After(Init(load), before), n - 1);
      OneMore(load, source, before, Start(n - 1));
      NothingMore(Outcomes(load, before));
      events := before + [Start(n - 1)];
    }
  }

  lemma NothingMore<T>(s: seq<T>)
    ensures s + [] == s
  {
  }

  lemma {:induction false} BatchAnswersOnly(chunk: seq<Job>, stash: seq<Line>, key: string)
    requires ByKey(stash).Keys == {key} && Refused(stash) == []
    ensures forall o :: o in BatchOutcomes(chunk, stash) ==> o.job in chunk && o.job.key == key
    ensures (exists job :: job in chunk && job.key == key) ==> BatchOutcomes(chunk, stash) != []
  {
    if chunk != [] {
      var init, last := chunk[..|chunk| - 1], chunk[|chunk| - 1];
      BatchAnswersOnly(init, stash, key);
      assert chunk == init + [last];
    }
  }

  /** A line that carries one day. */
  function DayLine(key: string, rows: Rows): Line {
    Line(None, Some(ParsedRow(key, false, rows)))
  }

  lemma DayLineTells(key: string, rows: Rows)
    ensures ByKey([DayLine(key, rows)]) == map[key := rows] && Refused([DayLine(key, rows)]) == []
  {
    assert [DayLine(key, rows)][..0] == [];
    assert Refused([]) == [];
  }

  /** A run has brought chunk `c` to this point, with this settled so far. */
  ghost predicate Reached(load: Load, source: Source, events: seq<Event>, c: nat, chunk: seq<Job>, w: Worker, done: seq<Outcome>) {
    HonestRun(load, source, events) && Outcomes(load, events) == done &&
    var s := After(Init(load), events);
    WellFormed(s) && !s.rejected && c < |s.workers| && s.chunks[c] == chunk && s.workers[c] == w
  }

  /** The batch of a chunk has answered one day. */
  lemma ReadDay(load: Load, source: Source, before: seq<Event>, c: nat, chunk: seq<Job>, line: Line, done: seq<Outcome>)
    requires Reached(load, source, before, c, chunk, Reading([]), done) && HonestLine(source, line)
    ensures Reached(load, source, before + [Read(c, line)] + [EndRead(c)], c, chunk, Parsing([line], 0), done)
  {
    var read := before + [Read(c, line)];
    OneMore(load, source, before, Read(c, line));
    assert [] + [line] == [line];
    NothingMore(done);
    assert Reached(load, source, read, c, chunk, Reading([line]), done);
    OneMore(load, source, read, EndRead(c));
  }

  lemma ParseDay(load: Load, source: Source, before: seq<Event>, c: nat, chunk: seq<Job>, line: Line, done: seq<Outcome>)
    requires Reached(load, source, before, c, chunk, Parsing([line], 0), done)
    ensures Reached(load, source, before + [Parse(c)] + [Absorb(c)], c, chunk,
                    Direct(StillMissing(chunk, Received([line]))), done + BatchOutcomes(chunk, [line]))
  {
    var parsed := before + [Parse(c)];
    OneMore(load, source, before, Parse(c));
    NothingMore(done);
    assert Reached(load, source, parsed, c, chunk, Parsing([line], 1), done);
    OneMore(load, source, parsed, Absorb(c));
  }

  lemma PendingAmong(cache: DayCache, jobs: seq<Job>)
    ensures forall j :: j in Pending(cache, jobs) ==> j in jobs
  {
    SeedPartition(cache, jobs);
    forall j | j in Pending(cache, jobs) ensures j in jobs {
      assert multiset(Pending(cache, jobs))[j] > 0 && multiset(jobs)[j] > 0;
    }
  }

  /** What is settled is settled as the source says. */
  lemma FinishedTellsSource(load: Load, source: Source, events: seq<Event>)
    requires Finished(load, source, events)
    ensures HonestOutcomes(source, Outcomes(load, events))
  {
    CacheStaysFaithful(load, source, events);
  }

  /**
   Any day of the first eight chunks that the source has can be the first to arrive after the cached
   ones, whatever comes later: its batch answers this day alone.
   */
  lemma AnyDayFirst(load: Load, source: Source, k: nat) returns (events: seq<Event>, first: Outcome)
    requires load.useBatch && Faithful(load.cache, source)
    requires var pending := Pending(load.cache, load.jobs);
      k < |pending| && k < FIRST_EIGHT && source(pending[k].key).Some?
    ensures Finished(load, source, events) && SeedOutcomes(load.cache, load.jobs) + [first] <= Outcomes(load, events)
    ensures first.job in load.jobs && first.job.key == Pending(load.cache, load.jobs)[k].key
  {
    var pending, chunks := Pending(load.cache, load.jobs), Init(load).chunks;
    var key := pending[k].key;
    var c, p := ChunkOf(pending, USER_DAY_BATCH_SIZE, k);
    var begun := OpenChunks(load, source, c + 1);
    WellFormedAlways(load, begun);
    var line := DayLine(key, source(key).value);
    var read, stash := begun + [Read(c, line)] + [EndRead(c)], [line];
    ReadDay(load, source, begun, c, chunks[c], line, SeedOutcomes(load.cache, load.jobs));
    ParseDay(load, source, read, c, chunks[c], line, SeedOutcomes(load.cache, load.jobs));
    DayLineTells(key, source(key).value);
    BatchAnswersOnly(chunks[c], stash, key);
    assert chunks[c][p] in chunks[c];
    first := BatchOutcomes(chunks[c], stash)[0];
    assert first in BatchOutcomes(chunks[c], stash);
    ChunksCover(pending, USER_DAY_BATCH_SIZE);
    FlattenMember(chunks, c, first.job);
    PendingAmong(load.cache, load.jobs);
    events := FinishRun(load, source, read + [Parse(c)] + [Absorb(c)]);
    FirstOf(SeedOutcomes(load.cache, load.jobs), BatchOutcomes(chunks[c], stash), Outcomes(load, events));
  }

  lemma FirstOf<T>(a: seq<T>, b: seq<T>, whole: seq<T>)
    requires b != [] && a + b <= whole
    ensures a + [b[0]] <= whole
  {
  }
}
