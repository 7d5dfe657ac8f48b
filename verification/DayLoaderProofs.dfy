/** What every run of the user-day loader delivers: each job settled once, each row pushed once. */
module DayLoaderProofs {
  import opened Seqs
  import opened BoundedCache
  import opened Ndjson
  import opened UserDays
  import opened DayLoader

  // ------------------------------------------------------------------ rows pushed = rows settled

  lemma RowsOfConcat(a: seq<Outcome>, b: seq<Outcome>, u: nat)
    ensures RowsOf(a + b, u) == RowsOf(a, u) + RowsOf(b, u)
  {
    FlatMapConcat((o: Outcome) => if o.job.userId == u && o.rows.Some? then o.rows.value else [], a, b);
  }

  lemma RowsOfOne(o: Outcome, u: nat)
    ensures RowsOf([o], u) == if o.job.userId == u && o.rows.Some? then o.rows.value else []
  {
    var f := (o: Outcome) => if o.job.userId == u && o.rows.Some? then o.rows.value else [];
    assert FlatMap(f, [o]) == f(o) + FlatMap(f, []);
  }

  /** The rows of `m1` are those of `m0` with the settled rows of each vehicle appended. */
  ghost predicate Grew(m0: map<nat, Rows>, m1: map<nat, Rows>, settled: seq<Outcome>) {
    m1.Keys == m0.Keys && forall u :: u in m0 ==> m1[u] == m0[u] + RowsOf(settled, u)
  }

  lemma GrewNothing(m: map<nat, Rows>)
    ensures Grew(m, m, [])
  {
  }

  lemma GrewMore(m0: map<nat, Rows>, m1: map<nat, Rows>, m2: map<nat, Rows>, a: seq<Outcome>, b: seq<Outcome>)
    requires Grew(m0, m1, a) && Grew(m1, m2, b)
    ensures Grew(m0, m2, a + b)
  {
    forall u | u in m0 ensures m2[u] == m0[u] + RowsOf(a + b, u) {
      RowsOfConcat(a, b, u);
    }
  }

  lemma PushGrew(m: map<nat, Rows>, job: Job, rows: Rows)
    ensures Grew(m, Push(m, job.userId, rows), [Outcome(job, Some(rows))])
  {
    forall u | u in m ensures Push(m, job.userId, rows)[u] == m[u] + RowsOf([Outcome(job, Some(rows))], u) {
      RowsOfOne(Outcome(job, Some(rows)), u);
    }
  }

  lemma FailureGrew(m: map<nat, Rows>, job: Job)
    ensures Grew(m, m, [Outcome(job, None)])
  {
    forall u | u in m ensures m[u] == m[u] + RowsOf([Outcome(job, None)], u) {
      RowsOfOne(Outcome(job, None), u);
    }
  }

  lemma {:induction false} SeedGrew(l: Ledger, jobs: seq<Job>)
    ensures Grew(l.rowsByUser, Seed(l, jobs).rowsByUser, SeedOutcomes(l.cache, jobs))
    ensures Seed(l, jobs).cache == l.cache
  {
    if jobs == [] {
      GrewNothing(l.rowsByUser);
    } else {
      var init, job := jobs[..|jobs| - 1], jobs[|jobs| - 1];
      SeedGrew(l, init);
      var m0, m1, m2 := l.rowsByUser, Seed(l, init).rowsByUser, Seed(l, jobs).rowsByUser;
      if Get(l.cache, job.key).Some? {
        PushGrew(m1, job, Get(l.cache, job.key).value);
      } else {
        GrewNothing(m1);
      }
      GrewMore(m0, m1, m2, SeedOutcomes(l.cache, init), SeedOutcome(l.cache, job));
    }
  }

  lemma {:induction false} AbsorbGrew(l: Ledger, chunk: seq<Job>, stash: seq<Line>)
    ensures Grew(l.rowsByUser, AbsorbRows(l, chunk, ByKey(stash)).rowsByUser, BatchOutcomes(chunk, stash))
  {
    if chunk == [] {
      GrewNothing(l.rowsByUser);
    } else {
      var init, job := chunk[..|chunk| - 1], chunk[|chunk| - 1];
      AbsorbGrew(l, init, stash);
      var m0 := l.rowsByUser;
      var m1 := AbsorbRows(l, init, ByKey(stash)).rowsByUser;
      if job.key in ByKey(stash) {
        PushGrew(m1, job, ByKey(stash)[job.key]);
      } else if job.key in Refused(stash) {
        FailureGrew(m1, job);
      } else {
        GrewNothing(m1);
      }
      GrewMore(m0, m1, AbsorbRows(l, chunk, ByKey(stash)).rowsByUser, BatchOutcomes(init, stash), BatchOutcome(job, stash));
    }
  }

  lemma {:induction false} NotesKeepRows(l: Ledger, notes: seq<Note>)
    ensures NoteAll(l, notes).rowsByUser == l.rowsByUser && NoteAll(l, notes).cache == l.cache
  {
    if notes != [] {
      NotesKeepRows(l, notes[..|notes| - 1]);
    }
  }

  lemma StepGrew(s: State, e: Event)
    requires Enabled(s, e)
    ensures Grew(s.ledger.rowsByUser, Step(s, e).ledger.rowsByUser, Settles(s, e))
  {
    var w := s.workers[e.c];
    match e {
      case Read(_, line) => NotesKeepRows(s.ledger, NotesOf(line.peek));
      case Parse(_) => NotesKeepRows(s.ledger, LateNotes(w.stash[w.at]));
      case Absorb(c) => AbsorbGrew(s.ledger, s.chunks[c], w.stash);
      case Fetched(_, i, rows) =>
        if rows.Some? {
          PushGrew(s.ledger.rowsByUser, w.todo[i], rows.value);
        } else {
          FailureGrew(s.ledger.rowsByUser, w.todo[i]);
        }
      case _ => GrewNothing(s.ledger.rowsByUser);
    }
    if !e.Absorb? && !e.Fetched? {
      GrewNothing(s.ledger.rowsByUser);
    }
  }

  /**
   At every moment of every run, a vehicle's rows are exactly the rows settled for it so far, in
   the order they were settled.
   */
  lemma {:induction false} RowsAreSettledRows(load: Load, events: seq<Event>)
    requires Legal(Init(load), events)
    ensures var s, done := After(Init(load), events), Outcomes(load, events);
      s.ledger.rowsByUser == map u | u in load.users :: RowsOf(done, u)
  {
    RowsGrewFromEmpty(load, events);
    var m0, m1 := EmptyLedger(load).rowsByUser, After(Init(load), events).ledger.rowsByUser;
    forall u | u in load.users ensures m1[u] == RowsOf(Outcomes(load, events), u) {
      assert u in m0;
    }
  }

  lemma {:induction false} RowsGrewFromEmpty(load: Load, events: seq<Event>)
    requires Legal(Init(load), events)
    ensures Grew(EmptyLedger(load).rowsByUser, After(Init(load), events).ledger.rowsByUser, Outcomes(load, events))
  {
    if events == [] {
      SeedGrew(EmptyLedger(load), load.jobs);
    } else {
      var init, e := events[..|events| - 1], events[|events| - 1];
      RowsGrewFromEmpty(load, init);
      var s := After(Init(load), init);
      StepGrew(s, e);
      GrewMore(EmptyLedger(load).rowsByUser, s.ledger.rowsByUser, Step(s, e).ledger.rowsByUser,
               Outcomes(load, init), Settles(s, e));
    }
  }

  // ------------------------------------------------------------------ every job settles once

  /** The jobs a worker has not settled yet. */
  function OpenJobs(chunk: seq<Job>, w: Worker): seq<Job> {
    if w.Direct? then w.todo else chunk
  }

  function Opens(chunks: seq<seq<Job>>, workers: seq<Worker>): (r: seq<seq<Job>>)
    requires |chunks| == |workers|
    ensures |r| == |chunks| && forall c :: 0 <= c < |r| ==> r[c] == OpenJobs(chunks[c], workers[c])
  {
    seq(|chunks|, c requires 0 <= c < |chunks| => OpenJobs(chunks[c], workers[c]))
  }

  function AllOpen(s: State): seq<Job>
    requires WellFormed(s)
  {
    Flatten(Opens(s.chunks, s.workers))
  }

  function JobsOf(outcomes: seq<Outcome>): seq<Job> {
    Map(JobOf, outcomes)
  }

  lemma JobsOfConcat(a: seq<Outcome>, b: seq<Outcome>)
    ensures JobsOf(a + b) == JobsOf(a) + JobsOf(b)
  {
  }

  /** Of a completed batch, the settled jobs and the missing jobs are together the chunk. */
  lemma {:induction false} BatchPartition(chunk: seq<Job>, stash: seq<Line>)
    ensures multiset(JobsOf(BatchOutcomes(chunk, stash))) + multiset(StillMissing(chunk, Received(stash)))
      == multiset(chunk)
  {
    if chunk != [] {
      var init, job := chunk[..|chunk| - 1], chunk[|chunk| - 1];
      assert chunk == init + [job];
      BatchPartition(init, stash);
      JobsOfConcat(BatchOutcomes(init, stash), BatchOutcome(job, stash));
      BatchPartitionOne(job, stash);
      var missing: seq<Job> := if job.key in Received(stash) then [] else [job];
      PartitionConcat(JobsOf(BatchOutcomes(init, stash)), StillMissing(init, Received(stash)), init,
                      JobsOf(BatchOutcome(job, stash)), missing, [job]);
    }
  }

  lemma BatchPartitionOne(job: Job, stash: seq<Line>)
    ensures multiset(JobsOf(BatchOutcome(job, stash)))
      + multiset(if job.key in Received(stash) then [] else [job]) == multiset([job])
  {
    if job.key in Received(stash) {
      assert JobsOf(BatchOutcome(job, stash)) == [job];
    } else {
      assert JobsOf(BatchOutcome(job, stash)) == [];
    }
  }

  lemma {:induction false} SeedPartition(cache: DayCache, jobs: seq<Job>)
    ensures multiset(JobsOf(SeedOutcomes(cache, jobs))) + multiset(Pending(cache, jobs)) == multiset(jobs)
  {
    if jobs != [] {
      var init, job := jobs[..|jobs| - 1], jobs[|jobs| - 1];
      assert jobs == init + [job];
      SeedPartition(cache, init);
      JobsOfConcat(SeedOutcomes(cache, init), SeedOutcome(cache, job));
      var pending: seq<Job> := if Get(cache, job.key).None? then [job] else [];
      assert JobsOf(SeedOutcome(cache, job)) + pending == [job];
      PartitionConcat(JobsOf(SeedOutcomes(cache, init)), Pending(cache, init), init,
                      JobsOf(SeedOutcome(cache, job)), pending, [job]);
    }
  }

  lemma {:induction false} WellFormedAlways(load: Load, events: seq<Event>)
    requires Legal(Init(load), events)
    ensures WellFormed(After(Init(load), events))
    ensures After(Init(load), events).chunks == Init(load).chunks
  {
    if events != [] {
      WellFormedAlways(load, events[..|events| - 1]);
    }
  }

  /** What an event settles is exactly what leaves its worker's open jobs. */
  lemma StepSettlesOpen(s: State, e: Event)
    requires Enabled(s, e)
    ensures multiset(OpenJobs(s.chunks[e.c], s.workers[e.c]))
      == multiset(OpenJobs(s.chunks[e.c], NextWorker(s, e))) + multiset(JobsOf(Settles(s, e)))
  {
    if e.Absorb? {
      BatchPartition(s.chunks[e.c], s.workers[e.c].stash);
    } else if e.Fetched? {
      var todo := s.workers[e.c].todo;
      assert JobsOf([Outcome(todo[e.i], e.rows)]) == [todo[e.i]];
    }
  }

  lemma OpensAfterStep(s: State, e: Event)
    requires Enabled(s, e)
    ensures Opens(s.chunks, Step(s, e).workers)
      == Opens(s.chunks, s.workers)[e.c := OpenJobs(s.chunks[e.c], NextWorker(s, e))]
  {
    var now, next := Opens(s.chunks, s.workers)[e.c := OpenJobs(s.chunks[e.c], NextWorker(s, e))], Step(s, e).workers;
    forall c | 0 <= c < |now| ensures Opens(s.chunks, next)[c] == now[c] {
      assert Opens(s.chunks, next)[c] == OpenJobs(s.chunks[c], next[c]);
    }
  }

  lemma StepConserves(s: State, e: Event)
    requires Enabled(s, e)
    ensures multiset(AllOpen(s)) == multiset(AllOpen(Step(s, e))) + multiset(JobsOf(Settles(s, e)))
  {
    StepSettlesOpen(s, e);
    var before, now := Opens(s.chunks, s.workers), OpenJobs(s.chunks[e.c], NextWorker(s, e));
    OpensAfterStep(s, e);
    FlattenUpdate(before, e.c, now);
    CancelMultisets(multiset(AllOpen(s)), multiset(before[e.c]), multiset(Flatten(before[e.c := now])), multiset(now),
                    multiset(JobsOf(Settles(s, e))));
  }

  lemma InitConserves(load: Load)
    ensures multiset(JobsOf(SeedOutcomes(load.cache, load.jobs))) + multiset(AllOpen(Init(load))) == multiset(load.jobs)
  {
    SeedPartition(load.cache, load.jobs);
    var pending, s := Pending(load.cache, load.jobs), Init(load);
    ChunksCover(pending, USER_DAY_BATCH_SIZE);
    assert Opens(s.chunks, s.workers) == s.chunks;
    assert Flatten([pending]) == pending + Flatten<Job>([]);
  }

  /** At every moment, the settled jobs and the open jobs are together the jobs of the load. */
  lemma {:induction false} JobsConserved(load: Load, events: seq<Event>)
    requires Legal(Init(load), events)
    ensures WellFormed(After(Init(load), events))
    ensures multiset(JobsOf(Outcomes(load, events))) + multiset(AllOpen(After(Init(load), events)))
      == multiset(load.jobs)
  {
    WellFormedAlways(load, events);
    if events == [] {
      InitConserves(load);
    } else {
      var init, e := events[..|events| - 1], events[|events| - 1];
      JobsConserved(load, init);
      StepConserves(After(Init(load), init), e);
      JobsOfConcat(Outcomes(load, init), Settles(After(Init(load), init), e));
    }
  }

  /**
   In every interleaving, with any mix of cached days, batch answers, missing keys, batch errors
   and direct retries, a run that completes has settled each job exactly once and holds, for each
   vehicle, the rows of its settled jobs and nothing else.
   */
  lemma EveryJobSettledOnce(load: Load, events: seq<Event>)
    requires Legal(Init(load), events) && Complete(After(Init(load), events))
    ensures multiset(JobsOf(Outcomes(load, events))) == multiset(load.jobs)
    ensures After(Init(load), events).ledger.rowsByUser
      == map u | u in load.users :: RowsOf(Outcomes(load, events), u)
  {
    JobsConserved(load, events);
    RowsAreSettledRows(load, events);
    var s := After(Init(load), events);
    FlattenEmpty(Opens(s.chunks, s.workers));
  }

  /** Some line of the stash parsed to this key. */
  ghost predicate Parsed(stash: seq<Line>, key: string) {
    exists i :: 0 <= i < |stash| && stash[i].row.Some? && stash[i].row.value.key == key
  }

  /** After a batch, exactly the days no line of its answer parsed to are fetched directly; failures are not asked for again. */
  lemma AnsweredNotRetried(s: State, c: nat)
    requires Enabled(s, Absorb(c))
    ensures var next := Step(s, Absorb(c)).workers[c];
      next.Direct? && forall j :: j in next.todo <==> j in s.chunks[c] && !Parsed(s.workers[c].stash, j.key)
  {
    var stash := s.workers[c].stash;
    forall j: Job ensures j.key in Received(stash) <==> Parsed(stash, j.key) {
      ByKeyMeaning(stash, j.key);
      RefusedMeaning(stash, j.key);
      ParsedIff(stash, j.key);
    }
  }

  lemma ParsedIff(stash: seq<Line>, key: string)
    ensures Parsed(stash, key)
      <==> (exists i :: 0 <= i < |stash| && GoodLine(stash[i], key)) || (exists i :: 0 <= i < |stash| && FailedLine(stash[i], key))
  {
    if Parsed(stash, key) {
      var i :| 0 <= i < |stash| && stash[i].row.Some? && stash[i].row.value.key == key;
      assert GoodLine(stash[i], key) || FailedLine(stash[i], key);
    }
  }

  // ------------------------------------------------------------------ against a fixed source

  /** What the days hold: `None` for a day that cannot be had. */
  type Source = string -> Option<Rows>

  predicate HonestLine(source: Source, line: Line) {
    line.row.Some? ==>
      source(line.row.value.key) == if line.row.value.failed then None else Some(line.row.value.rows)
  }

  /** The event's data comes from the source; lines may still be missing or unreadable. */
  predicate HonestEvent(source: Source, s: State, e: Event)
    requires Enabled(s, e)
  {
    match e
    case Read(_, line) => HonestLine(source, line)
    case AnswerJson(_, answers) => forall i :: 0 <= i < |answers| ==> HonestLine(source, PlainLine(answers[i]))
    case Fetched(c, i, rows) => rows == source(s.workers[c].todo[i].key)
    case _ => true
  }

  ghost predicate HonestRun(load: Load, source: Source, events: seq<Event>) {
    Legal(Init(load), events) && Faithful(load.cache, source) &&
    (events == [] || (HonestRun(load, source, events[..|events| - 1]) &&
      HonestEvent(source, After(Init(load), events[..|events| - 1]), events[|events| - 1])))
  }

  ghost predicate HonestStash(source: Source, w: Worker) {
    w.Reading? || w.Parsing? ==> forall i :: 0 <= i < |w.stash| ==> HonestLine(source, w.stash[i])
  }

  ghost predicate HonestOutcomes(source: Source, outcomes: seq<Outcome>) {
    forall i :: 0 <= i < |outcomes| ==> outcomes[i].rows == source(outcomes[i].job.key)
  }

  lemma {:induction false} StashTellsSource(source: Source, stash: seq<Line>)
    requires forall i :: 0 <= i < |stash| ==> HonestLine(source, stash[i])
    ensures forall k :: k in ByKey(stash) ==> source(k) == Some(ByKey(stash)[k])
    ensures forall k :: k in Refused(stash) ==> source(k) == None
  {
    if stash != [] {
      StashTellsSource(source, stash[..|stash| - 1]);
    }
  }

  lemma {:induction false} BatchHonest(source: Source, chunk: seq<Job>, stash: seq<Line>)
    requires forall i :: 0 <= i < |stash| ==> HonestLine(source, stash[i])
    ensures HonestOutcomes(source, BatchOutcomes(chunk, stash))
  {
    if chunk != [] {
      BatchHonest(source, chunk[..|chunk| - 1], stash);
      StashTellsSource(source, stash);
    }
  }

  lemma {:induction false} SeedHonest(source: Source, cache: DayCache, jobs: seq<Job>)
    requires Faithful(cache, source)
    ensures HonestOutcomes(source, SeedOutcomes(cache, jobs))
  {
    if jobs != [] {
      SeedHonest(source, cache, jobs[..|jobs| - 1]);
    }
  }

  lemma {:induction false} AbsorbFaithful(source: Source, l: Ledger, chunk: seq<Job>, stash: seq<Line>)
    requires Faithful(l.cache, source) && forall i :: 0 <= i < |stash| ==> HonestLine(source, stash[i])
    ensures Faithful(AbsorbRows(l, chunk, ByKey(stash)).cache, source)
  {
    if chunk != [] {
      var init, job := chunk[..|chunk| - 1], chunk[|chunk| - 1];
      AbsorbFaithful(source, l, init, stash);
      if job.key in ByKey(stash) {
        StashTellsSource(source, stash);
        RememberFaithful(AbsorbRows(l, init, ByKey(stash)).cache, DAY_CACHE_MAX, job.key, ByKey(stash)[job.key], source);
      }
    }
  }

  lemma HonestStep(source: Source, s: State, e: Event)
    requires Enabled(s, e) && HonestEvent(source, s, e)
    requires Faithful(s.ledger.cache, source) && HonestStash(source, s.workers[e.c])
    ensures Faithful(Step(s, e).ledger.cache, source) && HonestStash(source, NextWorker(s, e))
    ensures HonestOutcomes(source, Settles(s, e))
  {
    var w := s.workers[e.c];
    match e {
      case Read(_, line) => NotesKeepRows(s.ledger, NotesOf(line.peek));
      case Parse(_) => NotesKeepRows(s.ledger, LateNotes(w.stash[w.at]));
      case Absorb(c) =>
        AbsorbFaithful(source, s.ledger, s.chunks[c], w.stash);
        BatchHonest(source, s.chunks[c], w.stash);
      case Fetched(_, i, rows) =>
        if rows.Some? {
          RememberFaithful(s.ledger.cache, DAY_CACHE_MAX, w.todo[i].key, rows.value, source);
        }
      case _ =>
    }
  }

  /** Cache transparency: every cached entry stays what the source answers, whatever was evicted. */
  lemma {:induction false} CacheStaysFaithful(load: Load, source: Source, events: seq<Event>)
    requires HonestRun(load, source, events)
    ensures var s := After(Init(load), events);
      WellFormed(s) && Faithful(s.ledger.cache, source) && HonestOutcomes(source, Outcomes(load, events))
      && forall c :: 0 <= c < |s.workers| ==> HonestStash(source, s.workers[c])
  {
    WellFormedAlways(load, events);
    if events == [] {
      SeedGrew(EmptyLedger(load), load.jobs);
      SeedHonest(source, load.cache, load.jobs);
    } else {
      var init, e := events[..|events| - 1], events[|events| - 1];
      CacheStaysFaithful(load, source, init);
      HonestStep(source, After(Init(load), init), e);
    }
  }

  /** The naive loader: fetch every job of the vehicle directly, in job order. */
  function NaiveRows(source: Source, jobs: seq<Job>, userId: nat): Rows {
    FlatMap((j: Job) => if j.userId == userId && source(j.key).Some? then source(j.key).value else [], jobs)
  }

  lemma {:induction false} HonestRowsAreNaive(source: Source, outcomes: seq<Outcome>, userId: nat)
    requires HonestOutcomes(source, outcomes)
    ensures RowsOf(outcomes, userId) == NaiveRows(source, JobsOf(outcomes), userId)
  {
    if outcomes != [] {
      HonestRowsAreNaive(source, outcomes[1..], userId);
      assert JobsOf(outcomes)[1..] == JobsOf(outcomes[1..]);
    }
  }

  /**
   The cached, batched, interleaved loader refines the naive one: for every vehicle the same
   multiset of rows.
   */
  lemma RefinesNaiveLoader(load: Load, source: Source, events: seq<Event>, userId: nat)
    requires HonestRun(load, source, events) && Complete(After(Init(load), events)) && userId in load.users
    ensures var got := After(Init(load), events).ledger.rowsByUser;
      userId in got && multiset(got[userId]) == multiset(NaiveRows(source, load.jobs, userId))
  {
    EveryJobSettledOnce(load, events);
    CacheStaysFaithful(load, source, events);
    var done := Outcomes(load, events);
    HonestRowsAreNaive(source, done, userId);
    FlatMapPermutes((j: Job) => if j.userId == userId && source(j.key).Some? then source(j.key).value else [],
                    JobsOf(done), load.jobs);
  }

  /** From any two caches that tell the truth, loads of the same jobs give each vehicle the same multiset of rows. */
  lemma FaithfulCachesAgree(a: Load, b: Load, source: Source, e1: seq<Event>, e2: seq<Event>, userId: nat)
    requires a.users == b.users && a.jobs == b.jobs && userId in a.users
    requires HonestRun(a, source, e1) && Complete(After(Init(a), e1))
    requires HonestRun(b, source, e2) && Complete(After(Init(b), e2))
    ensures var x, y := After(Init(a), e1).ledger.rowsByUser, After(Init(b), e2).ledger.rowsByUser;
      userId in x && userId in y && multiset(x[userId]) == multiset(y[userId])
  {
    RefinesNaiveLoader(a, source, e1, userId);
    RefinesNaiveLoader(b, source, e2, userId);
  }

  // ------------------------------------------------------------------ one load after another

  /** Every event of the run carries the source's data, whatever the cache held at the start. */
  ghost predicate HonestEvents(load: Load, source: Source, events: seq<Event>) {
    Legal(Init(load), events) &&
    (events == [] || (HonestEvents(load, source, events[..|events| - 1]) &&
      HonestEvent(source, After(Init(load), events[..|events| - 1]), events[|events| - 1])))
  }

  lemma {:induction false} HonestFromFaithful(load: Load, source: Source, events: seq<Event>)
    requires HonestEvents(load, source, events) && Faithful(load.cache, source)
    ensures HonestRun(load, source, events)
  {
    if events != [] {
      HonestFromFaithful(load, source, events[..|events| - 1]);
    }
  }

  /** One earlier call: what it was given and how far it came. It may have been aborted anywhere. */
  datatype Past = Past(load: Load, events: seq<Event>)

  /** The day cache earlier calls left. */
  ghost function CacheLeft(pasts: seq<Past>): DayCache
    requires forall i :: 0 <= i < |pasts| ==> Legal(Init(pasts[i].load), pasts[i].events)
  {
    if pasts == [] then []
    else After(Init(pasts[|pasts| - 1].load), pasts[|pasts| - 1].events).ledger.cache
  }

  /** Calls one after another, each starting with the cache the one before it left. */
  ghost predicate Chain(source: Source, pasts: seq<Past>) {
    pasts == [] ||
    var earlier, last := pasts[..|pasts| - 1], pasts[|pasts| - 1];
    Chain(source, earlier) && (forall i :: 0 <= i < |earlier| ==> Legal(Init(earlier[i].load), earlier[i].events))
    && last.load.cache == CacheLeft(earlier) && HonestEvents(last.load, source, last.events)
  }

  lemma {:induction false} ChainLegal(source: Source, pasts: seq<Past>)
    requires Chain(source, pasts)
    ensures forall i :: 0 <= i < |pasts| ==> Legal(Init(pasts[i].load), pasts[i].events)
  {
    if pasts != [] {
      var earlier := pasts[..|pasts| - 1];
      ChainLegal(source, earlier);
      assert forall i :: 0 <= i < |earlier| ==> earlier[i] == pasts[i];
    }
  }

  /** After any number of loads, finished or aborted, every cached day is what the source answers. */
  lemma {:induction false} CacheFaithfulThroughLoads(source: Source, pasts: seq<Past>)
    requires Chain(source, pasts)
    ensures forall i :: 0 <= i < |pasts| ==> Legal(Init(pasts[i].load), pasts[i].events)
    ensures Faithful(CacheLeft(pasts), source)
  {
    ChainLegal(source, pasts);
    if pasts != [] {
      var last := pasts[|pasts| - 1];
      CacheFaithfulThroughLoads(source, pasts[..|pasts| - 1]);
      HonestFromFaithful(last.load, source, last.events);
      CacheStaysFaithful(last.load, source, last.events);
    }
  }

  /**
   A load that starts with the cache any earlier loads left and a load that starts with none give each
   vehicle the same multiset of rows.
   */
  lemma WarmEqualsCold(pasts: seq<Past>, warm: Load, cold: Load, source: Source, e1: seq<Event>, e2: seq<Event>, userId: nat)
    requires Chain(source, pasts + [Past(warm, e1)]) && Complete(After(Init(warm), e1))
    requires Chain(source, [Past(cold, e2)]) && Complete(After(Init(cold), e2))
    requires warm.users == cold.users && warm.jobs == cold.jobs && userId in warm.users
    ensures var a, b := After(Init(warm), e1).ledger.rowsByUser, After(Init(cold), e2).ledger.rowsByUser;
      userId in a && userId in b && multiset(a[userId]) == multiset(b[userId])
  {
    assert (pasts + [Past(warm, e1)])[..|pasts|] == pasts && [Past(cold, e2)][..0] == [];
    CacheFaithfulThroughLoads(source, pasts);
    HonestFromFaithful(warm, source, e1);
    HonestFromFaithful(cold, source, e2);
    FaithfulCachesAgree(warm, cold, source, e1, e2, userId);
  }
}
