/** When `skipped` is the number of jobs without rows, and two runs where it is not. */
module DaySkips {
  import opened Seqs
  import opened Ndjson
  import opened UserDays
  import opened DayLoader
  import opened DayProgress

  /** The number of jobs settled without rows. */
  function Fails(outcomes: seq<Outcome>): nat {
    if outcomes == [] then 0
    else Fails(outcomes[..|outcomes| - 1]) + if outcomes[|outcomes| - 1].rows.None? then 1 else 0
  }

  lemma {:induction false} FailsConcat(a: seq<Outcome>, b: seq<Outcome>)
    ensures Fails(a + b) == Fails(a) + Fails(b)
  {
    if b == [] {
      assert a + b == a;
    } else {
      assert (a + b)[..|a + b| - 1] == a + b[..|b| - 1];
      FailsConcat(a, b[..|b| - 1]);
    }
  }

  // ------------------------------------------------------------------ tidy batches

  function KeyOf(line: Line): string {
    if line.row.Some? then line.row.value.key else ""
  }

  /** A well-formed line for a job of the chunk, whose peek, if any, tells the truth. */
  ghost predicate TidyLine(chunk: seq<Job>, line: Line) {
    && line.row.Some? && line.row.value.key in Keys(chunk)
    && (line.peek.Some? ==> line.peek.value == Note(line.row.value.key, line.row.value.failed))
  }

  ghost predicate TidyStash(chunk: seq<Job>, stash: seq<Line>) {
    && (forall i :: 0 <= i < |stash| ==> TidyLine(chunk, stash[i]))
    && forall i, j :: 0 <= i < j < |stash| ==> KeyOf(stash[i]) != KeyOf(stash[j])
  }

  /** Whatever the worker has read, it has announced nothing of it. */
  ghost predicate NothingTold(w: Worker)
    requires w.Reading? || w.Parsing?
  {
    (w.Parsing? ==> w.at == 0) && forall i :: 0 <= i < |w.stash| ==> w.stash[i].peek.None?
  }

  /** One well-formed line per announced key, or a failure before any announcement. */
  ghost predicate TidyEvent(s: State, e: Event)
    requires Enabled(s, e)
  {
    match e
    case Read(c, line) => TidyStash(s.chunks[c], s.workers[c].stash + [line])
    case AnswerJson(c, answers) => TidyStash(s.chunks[c], Map(PlainLine, answers))
    case Break(c) => NothingTold(s.workers[c])
    case _ => true
  }

  ghost predicate TidyRun(load: Load, events: seq<Event>) {
    Legal(Init(load), events) && DistinctJobs(load.jobs) &&
    (events == [] || (TidyRun(load, events[..|events| - 1]) &&
      TidyEvent(After(Init(load), events[..|events| - 1]), events[|events| - 1])))
  }

  // ------------------------------------------------------------------ failures announced but not yet settled

  predicate ToldFailure(line: Line, parsed: bool) {
    line.row.Some? && line.row.value.failed && (line.peek.Some? || parsed)
  }

  /** Among the first `n` lines, the failures announced once `at` lines are parsed. */
  function Told(stash: seq<Line>, n: nat, at: nat): nat
    requires n <= |stash|
  {
    if n == 0 then 0 else Told(stash, n - 1, at) + if ToldFailure(stash[n - 1], n - 1 < at) then 1 else 0
  }

  function Live(w: Worker): nat {
    match w
    case Reading(stash) => Told(stash, |stash|, 0)
    case Parsing(stash, at) => Told(stash, |stash|, at)
    case _ => 0
  }

  function LiveSum(workers: seq<Worker>): nat {
    if workers == [] then 0 else Live(workers[0]) + LiveSum(workers[1..])
  }

  lemma {:induction false} LiveSumUpdate(workers: seq<Worker>, c: nat, w: Worker)
    requires c < |workers|
    ensures LiveSum(workers[c := w]) + Live(workers[c]) == LiveSum(workers) + Live(w)
  {
    if c == 0 {
      assert workers[0 := w][1..] == workers[1..];
    } else {
      assert workers[c := w][1..] == workers[1..][c - 1 := w];
      LiveSumUpdate(workers[1..], c - 1, w);
    }
  }

  lemma {:induction false} LiveSumZero(workers: seq<Worker>)
    requires forall c :: 0 <= c < |workers| ==> Live(workers[c]) == 0
    ensures LiveSum(workers) == 0
  {
    if workers != [] {
      LiveSumZero(workers[1..]);
    }
  }

  lemma {:induction false} ToldPrefix(stash: seq<Line>, line: Line, n: nat, at: nat)
    requires n <= |stash|
    ensures Told(stash + [line], n, at) == Told(stash, n, at)
  {
    if n > 0 {
      ToldPrefix(stash, line, n - 1, at);
    }
  }

  lemma {:induction false} ToldNext(stash: seq<Line>, n: nat, at: nat)
    requires n <= |stash| && at < |stash|
    ensures Told(stash, n, at + 1) == Told(stash, n, at)
      + if at < n && ToldFailure(stash[at], true) && !ToldFailure(stash[at], false) then 1 else 0
  {
    if n > 0 {
      ToldNext(stash, n - 1, at);
    }
  }

  lemma {:induction false} ToldNone(stash: seq<Line>, n: nat)
    requires n <= |stash| && forall i :: 0 <= i < |stash| ==> stash[i].peek.None?
    ensures Told(stash, n, 0) == 0
  {
    if n > 0 {
      ToldNone(stash, n - 1);
    }
  }

  // ------------------------------------------------------------------ a finished tidy batch

  ghost function RefusedKeys(stash: seq<Line>): set<string> {
    set k | k in Refused(stash)
  }

  /** A finished tidy batch has announced as many failures as it refused keys. */
  lemma {:induction false} ToldAll(chunk: seq<Job>, stash: seq<Line>, n: nat)
    requires TidyStash(chunk, stash) && n <= |stash|
    ensures Told(stash, n, |stash|) == |RefusedKeys(stash[..n])|
    ensures forall k :: k in RefusedKeys(stash[..n]) ==> exists i :: 0 <= i < n && KeyOf(stash[i]) == k
  {
    if n > 0 {
      ToldAll(chunk, stash, n - 1);
      assert TidyLine(chunk, stash[n - 1]);
      assert stash[..n][..n - 1] == stash[..n - 1];
      var k := KeyOf(stash[n - 1]);
      assert k !in RefusedKeys(stash[..n - 1]);
      if stash[n - 1].row.value.failed {
        assert RefusedKeys(stash[..n]) == RefusedKeys(stash[..n - 1]) + {k};
      } else {
        assert RefusedKeys(stash[..n]) == RefusedKeys(stash[..n - 1]);
      }
    }
  }

  lemma TidyAnswersDisjoint(chunk: seq<Job>, stash: seq<Line>, key: string)
    requires TidyStash(chunk, stash) && key in Refused(stash)
    ensures key !in ByKey(stash) && key in Keys(chunk)
  {
    RefusedMeaning(stash, key);
    ByKeyMeaning(stash, key);
    var i :| 0 <= i < |stash| && FailedLine(stash[i], key);
    assert TidyLine(chunk, stash[i]);
    forall j | 0 <= j < |stash| ensures !GoodLine(stash[j], key) {
      assert j == i || KeyOf(stash[i]) != KeyOf(stash[j]);
    }
  }

  lemma CommonWith<T>(a: set<T>, x: T, b: set<T>)
    requires x !in a
    ensures |(a + {x}) * b| == |a * b| + if x in b then 1 else 0
  {
    if x in b {
      assert (a + {x}) * b == a * b + {x};
    } else {
      assert (a + {x}) * b == a * b;
    }
  }

  lemma OutcomeFails(job: Job, stash: seq<Line>)
    requires job.key in Refused(stash) ==> job.key !in ByKey(stash)
    ensures Fails(BatchOutcome(job, stash)) == if job.key in RefusedKeys(stash) then 1 else 0
  {
    assert Fails([Outcome(job, None)]) == Fails([]) + 1;
  }

  lemma KeysSnoc(chunk: seq<Job>)
    requires chunk != [] && DistinctJobs(chunk)
    ensures var init, job := chunk[..|chunk| - 1], chunk[|chunk| - 1];
      DistinctJobs(init) && Keys(chunk) == Keys(init) + {job.key} && job.key !in Keys(init)
  {
    assert chunk == chunk[..|chunk| - 1] + [chunk[|chunk| - 1]];
  }

  /** Of distinct jobs, a batch fails one for each of their keys it refused. */
  lemma {:induction false} BatchFails(chunk: seq<Job>, stash: seq<Line>)
    requires DistinctJobs(chunk) && forall k :: k in Refused(stash) ==> k !in ByKey(stash)
    ensures Fails(BatchOutcomes(chunk, stash)) == |Keys(chunk) * RefusedKeys(stash)|
  {
    if chunk == [] {
      assert Keys(chunk) * RefusedKeys(stash) == {};
    } else {
      var init, job := chunk[..|chunk| - 1], chunk[|chunk| - 1];
      KeysSnoc(chunk);
      BatchFails(init, stash);
      FailsConcat(BatchOutcomes(init, stash), BatchOutcome(job, stash));
      OutcomeFails(job, stash);
      CommonWith(Keys(init), job.key, RefusedKeys(stash));
    }
  }

  lemma TidyBatchFails(chunk: seq<Job>, stash: seq<Line>)
    requires DistinctJobs(chunk) && TidyStash(chunk, stash)
    ensures Fails(BatchOutcomes(chunk, stash)) == Told(stash, |stash|, |stash|)
  {
    forall k | k in Refused(stash) ensures k !in ByKey(stash) && k in Keys(chunk) {
      TidyAnswersDisjoint(chunk, stash, k);
    }
    BatchFails(chunk, stash);
    ToldAll(chunk, stash, |stash|);
    assert stash[..|stash|] == stash;
    assert Keys(chunk) * RefusedKeys(stash) == RefusedKeys(stash);
  }

  // ------------------------------------------------------------------ which keys are counted

  /** Whether a key of the worker's chunk has been counted. */
  ghost predicate Known(w: Worker, key: string) {
    if w.Direct? then key !in Keys(w.todo) else Announced(w, key)
  }

  ghost predicate TidyWorker(chunk: seq<Job>, w: Worker) {
    match w
    case Reading(stash) => TidyStash(chunk, stash)
    case Parsing(stash, at) => TidyStash(chunk, stash) && at <= |stash|
    case Direct(todo) => DistinctJobs(todo) && forall i :: 0 <= i < |todo| ==> todo[i] in chunk
    case _ => true
  }

  ghost predicate TidyAt(s: State, c: nat)
    requires WellFormed(s) && c < |s.chunks|
  {
    && DistinctJobs(s.chunks[c]) && TidyWorker(s.chunks[c], s.workers[c])
    && forall k :: k in Keys(s.chunks[c]) ==> (k in s.ledger.counted <==> Known(s.workers[c], k))
  }

  ghost predicate KeysApart(chunks: seq<seq<Job>>) {
    forall c, d :: 0 <= c < d < |chunks| ==> Keys(chunks[c]) !! Keys(chunks[d])
  }

  ghost predicate TidyState(s: State) {
    WellFormed(s) && KeysApart(s.chunks) && forall c :: 0 <= c < |s.chunks| ==> TidyAt(s, c)
  }

  lemma RemovedDistinct(todo: seq<Job>, i: nat)
    requires DistinctJobs(todo) && i < |todo|
    ensures DistinctJobs(RemoveAt(todo, i))
    ensures Keys(RemoveAt(todo, i)) == Keys(todo) - {todo[i].key}
  {
    var r := RemoveAt(todo, i);
    forall j | j in todo && j.key != todo[i].key ensures j in r {
      var x :| 0 <= x < |todo| && todo[x] == j;
      assert r[if x < i then x else x - 1] == j;
    }
  }

  lemma {:induction false} MissingDistinct(chunk: seq<Job>, received: set<string>)
    requires DistinctJobs(chunk)
    ensures DistinctJobs(StillMissing(chunk, received))
  {
    if chunk != [] {
      var init, job := chunk[..|chunk| - 1], chunk[|chunk| - 1];
      MissingDistinct(init, received);
      forall j | j in StillMissing(init, received) ensures j.key != job.key {
        assert j in init;
      }
    }
  }

  /** An event leaves the next worker tidy. */
  lemma StepTidyWorker(s: State, e: Event)
    requires Enabled(s, e) && TidyEvent(s, e) && TidyAt(s, e.c)
    ensures TidyWorker(s.chunks[e.c], NextWorker(s, e))
  {
    match e {
      case Absorb(c) => MissingDistinct(s.chunks[c], Received(s.workers[c].stash));
      case Fetched(c, i, _) => RemovedDistinct(s.workers[c].todo, i);
      case _ =>
    }
  }

  /** The keys an event counts are the keys that become known, and none of them was counted before. */
  lemma StepKnown(s: State, e: Event, k: string)
    requires Enabled(s, e) && TidyEvent(s, e) && TidyAt(s, e.c) && k in Keys(s.chunks[e.c])
    ensures k in Step(s, e).ledger.counted <==> Known(NextWorker(s, e), k)
  {
    StepCounted(s, e);
    var chunk, w, w' := s.chunks[e.c], s.workers[e.c], NextWorker(s, e);
    match e {
      case Read(_, line) =>
        assert w'.stash[|w.stash|] == line;
        assert forall i :: 0 <= i < |w.stash| ==> w'.stash[i] == w.stash[i];
        if line.peek.Some? {
          assert NotesOf(line.peek)[0] == line.peek.value;
          assert PeekedAs(line, k) <==> line.peek.value.key == k;
        }
      case Parse(_) =>
        var line := w.stash[w.at];
        assert TidyLine(chunk, line);
        if line.peek.None? {
          assert LateNotes(line)[0] == Note(KeyOf(line), line.row.value.failed);
          assert RowedAs(line, k) <==> KeyOf(line) == k;
        } else {
          assert PeekedAs(line, k) <==> KeyOf(line) == k;
        }
      case AnswerJson(_, _) =>
        assert forall i :: 0 <= i < |w'.stash| ==> w'.stash[i].peek.None?;
      case Absorb(_) => AbsorbKnown(chunk, w.stash, k);
      case Break(_) =>
        var j :| j in chunk && j.key == k;
        var i :| 0 <= i < |chunk| && chunk[i] == j;
      case Fetched(_, i, _) => RemovedDistinct(w.todo, i);
      case _ =>
    }
  }

  lemma AbsorbKnown(chunk: seq<Job>, stash: seq<Line>, k: string)
    requires TidyStash(chunk, stash) && k in Keys(chunk)
    ensures Announced(Parsing(stash, |stash|), k) <==> Known(Direct(StillMissing(chunk, Received(stash))), k)
  {
    var missing := StillMissing(chunk, Received(stash));
    var j :| j in chunk && j.key == k;
    if k in Received(stash) {
      forall i | 0 <= i < |stash| ensures Agrees(stash[i]) {
        assert TidyLine(chunk, stash[i]);
      }
      ReceivedIsAnnounced(stash, k);
      forall i | 0 <= i < |missing| ensures missing[i].key != k {
        assert missing[i] in missing;
      }
    } else {
      assert j in missing;
      var i :| 0 <= i < |missing| && missing[i] == j;
      ByKeyMeaning(stash, k);
      RefusedMeaning(stash, k);
      forall x | 0 <= x < |stash| ensures !PeekedAs(stash[x], k) && !RowedAs(stash[x], k) {
        assert TidyLine(chunk, stash[x]) && !GoodLine(stash[x], k) && !FailedLine(stash[x], k);
      }
    }
  }

  /** The keys an event counts belong to its own chunk. */
  lemma StepCountsOwn(s: State, e: Event)
    requires Enabled(s, e) && TidyEvent(s, e) && TidyAt(s, e.c)
    ensures Step(s, e).ledger.counted <= s.ledger.counted + Keys(s.chunks[e.c])
    ensures s.ledger.counted <= Step(s, e).ledger.counted
  {
    StepCounted(s, e);
    match e {
      case Read(c, line) =>
        var stash := s.workers[c].stash + [line];
        assert TidyLine(s.chunks[c], stash[|stash| - 1]);
      case Parse(c) =>
        assert TidyLine(s.chunks[c], s.workers[c].stash[s.workers[c].at]);
      case _ =>
    }
  }

  lemma StepTidyAt(s: State, e: Event, c: nat)
    requires Enabled(s, e) && TidyEvent(s, e) && TidyState(s) && c < |s.chunks|
    ensures TidyAt(Step(s, e), c)
  {
    assert TidyAt(s, c) && TidyAt(s, e.c);
    if c == e.c {
      StepTidyWorker(s, e);
      forall k | k in Keys(s.chunks[c]) ensures k in Step(s, e).ledger.counted <==> Known(NextWorker(s, e), k) {
        StepKnown(s, e, k);
      }
    } else {
      StepCountsOwn(s, e);
      assert Keys(s.chunks[c]) !! Keys(s.chunks[e.c]);
    }
  }

  // ------------------------------------------------------------------ skipped, step by step

  lemma ReadSkips(s: State, e: Event)
    requires Enabled(s, e) && e.Read? && TidyEvent(s, e) && TidyAt(s, e.c)
    ensures Step(s, e).ledger.skipped + Live(s.workers[e.c]) == s.ledger.skipped + Live(NextWorker(s, e))
  {
    var stash, line := s.workers[e.c].stash, e.line;
    ToldPrefix(stash, line, |stash|, 0);
    assert TidyLine(s.chunks[e.c], (stash + [line])[|stash|]);
    if line.peek.Some? {
      var k := KeyOf(line);
      assert k !in s.ledger.counted by {
        forall i | 0 <= i < |stash| ensures !PeekedAs(stash[i], k) {
          assert TidyLine(s.chunks[e.c], stash[i]) && KeyOf((stash + [line])[i]) != KeyOf((stash + [line])[|stash|]);
        }
      }
      assert NotesOf(line.peek)[..0] == [];
      assert s.ledger == NoteAll(s.ledger, []);
    }
  }

  lemma ParseSkips(s: State, e: Event)
    requires Enabled(s, e) && e.Parse? && TidyAt(s, e.c)
    ensures Step(s, e).ledger.skipped + Live(s.workers[e.c]) == s.ledger.skipped + Live(NextWorker(s, e))
  {
    var stash, at := s.workers[e.c].stash, s.workers[e.c].at;
    var line := stash[at];
    ToldNext(stash, |stash|, at);
    assert TidyLine(s.chunks[e.c], line);
    if line.peek.None? {
      var k := KeyOf(line);
      assert k !in s.ledger.counted by {
        forall i | 0 <= i < |stash| && (i < at || stash[i].peek.Some?)
          ensures !PeekedAs(stash[i], k) && !RowedAs(stash[i], k)
        {
          assert i != at;
          assert TidyLine(s.chunks[e.c], stash[i]) && KeyOf(stash[i]) != KeyOf(stash[at]);
        }
      }
      assert LateNotes(line)[..0] == [];
      assert s.ledger == NoteAll(s.ledger, []);
    }
  }

  lemma FetchedSkips(s: State, e: Event)
    requires Enabled(s, e) && e.Fetched? && TidyAt(s, e.c)
    ensures Step(s, e).ledger.skipped == s.ledger.skipped + Fails(Settles(s, e))
  {
    var todo := s.workers[e.c].todo;
    assert todo[e.i].key in Keys(s.chunks[e.c]);
    assert Settles(s, e)[..0] == [];
  }

  /** `skipped` moves in step with the failures settled and the failures announced. */
  lemma StepSkips(s: State, e: Event)
    requires Enabled(s, e) && TidyEvent(s, e) && TidyAt(s, e.c)
    ensures Step(s, e).ledger.skipped + Live(s.workers[e.c])
      == s.ledger.skipped + Live(NextWorker(s, e)) + Fails(Settles(s, e))
  {
    match e {
      case Read(_, _) => ReadSkips(s, e);
      case Parse(_) => ParseSkips(s, e);
      case Fetched(_, _, _) => FetchedSkips(s, e);
      case Absorb(c) =>
        AbsorbKeepsCounts(s.ledger, s.chunks[c], ByKey(s.workers[c].stash));
        TidyBatchFails(s.chunks[c], s.workers[c].stash);
      case AnswerJson(_, answers) => ToldNone(Map(PlainLine, answers), |answers|);
      case Break(c) => ToldNone(s.workers[c].stash, |s.workers[c].stash|);
      case _ =>
    }
  }

  // ------------------------------------------------------------------ whole runs

  lemma {:induction false} ChunksApart(chunks: seq<seq<Job>>)
    requires DistinctJobs(Flatten(chunks))
    ensures KeysApart(chunks) && forall c :: 0 <= c < |chunks| ==> DistinctJobs(chunks[c])
  {
    if chunks != [] {
      var head, rest := chunks[0], Flatten(chunks[1..]);
      var all := head + rest;
      assert DistinctJobs(head) by {
        assert forall i :: 0 <= i < |head| ==> all[i] == head[i];
      }
      assert DistinctJobs(rest) by {
        assert forall i :: 0 <= i < |rest| ==> all[|head| + i] == rest[i];
      }
      ChunksApart(chunks[1..]);
      forall d | 1 <= d < |chunks| ensures Keys(head) !! Keys(chunks[d]) {
        forall j, k | j in head && k in chunks[d] ensures j.key != k.key {
          FlattenMember(chunks[1..], d - 1, k);
          var x :| 0 <= x < |head| && head[x] == j;
          var y :| 0 <= y < |rest| && rest[y] == k;
          assert all[x] == j && all[|head| + y] == k;
        }
      }
      forall c, d | 0 <= c < d < |chunks| ensures Keys(chunks[c]) !! Keys(chunks[d]) {
        if c > 0 {
          assert Keys(chunks[1..][c - 1]) !! Keys(chunks[1..][d - 1]);
        }
      }
    }
  }

  lemma {:induction false} PendingFacts(cache: DayCache, jobs: seq<Job>)
    requires DistinctJobs(jobs)
    ensures DistinctJobs(Pending(cache, jobs)) && forall j :: j in Pending(cache, jobs) ==> j in jobs
    ensures Keys(Pending(cache, jobs)) !! OutcomeKeys(SeedOutcomes(cache, jobs))
  {
    if jobs != [] {
      var init, job := jobs[..|jobs| - 1], jobs[|jobs| - 1];
      PendingFacts(cache, init);
      SeedOutcomesAre(cache, init);
      assert job.key !in Keys(init);
      assert Keys(Pending(cache, init)) <= Keys(init);
      OutcomeKeysConcat(SeedOutcomes(cache, init), SeedOutcome(cache, job));
    }
  }

  lemma {:induction false} SeedFails(cache: DayCache, jobs: seq<Job>)
    ensures Fails(SeedOutcomes(cache, jobs)) == 0
  {
    if jobs != [] {
      SeedFails(cache, jobs[..|jobs| - 1]);
      FailsConcat(SeedOutcomes(cache, jobs[..|jobs| - 1]), SeedOutcome(cache, jobs[|jobs| - 1]));
    }
  }

  lemma InitTidy(load: Load)
    requires DistinctJobs(load.jobs)
    ensures TidyState(Init(load))
    ensures Init(load).ledger.skipped == LiveSum(Init(load).workers) + Fails(SeedOutcomes(load.cache, load.jobs))
  {
    var s, pending := Init(load), Pending(load.cache, load.jobs);
    PendingFacts(load.cache, load.jobs);
    SeedCounted(EmptyLedger(load), load.jobs);
    SeedTally(EmptyLedger(load), load.jobs);
    SeedFails(load.cache, load.jobs);
    LiveSumZero(s.workers);
    ChunksCover(pending, USER_DAY_BATCH_SIZE);
    assert Flatten([pending]) == pending + Flatten<Job>([]);
    assert Flatten(s.chunks) == pending;
    ChunksApart(s.chunks);
    forall c | 0 <= c < |s.chunks| ensures TidyAt(s, c) {
      forall k | k in Keys(s.chunks[c]) ensures k !in s.ledger.counted && !Known(s.workers[c], k) {
        var j :| j in s.chunks[c] && j.key == k;
        FlattenMember(s.chunks, c, j);
        var i :| 0 <= i < |s.chunks[c]| && s.chunks[c][i] == j;
      }
    }
  }

  lemma {:induction false} SkippedInStep(load: Load, events: seq<Event>)
    requires TidyRun(load, events)
    ensures TidyState(After(Init(load), events))
    ensures After(Init(load), events).ledger.skipped
      == LiveSum(After(Init(load), events).workers) + Fails(Outcomes(load, events))
  {
    if events == [] {
      InitTidy(load);
    } else {
      var init, e := events[..|events| - 1], events[|events| - 1];
      SkippedInStep(load, init);
      var s := After(Init(load), init);
      assert TidyAt(s, e.c);
      StepSkips(s, e);
      LiveSumUpdate(s.workers, e.c, NextWorker(s, e));
      FailsConcat(Outcomes(load, init), Settles(s, e));
      forall c | 0 <= c < |s.chunks| ensures TidyAt(Step(s, e), c) {
        StepTidyAt(s, e, c);
      }
    }
  }

  /**
   When every batch either completes with one well-formed line per announced key or fails before
   announcing any, a completed run has skipped exactly the jobs that were settled without rows.
   */
  lemma SkippedIsJobsWithoutRows(load: Load, events: seq<Event>)
    requires TidyRun(load, events) && Complete(After(Init(load), events))
    ensures After(Init(load), events).ledger.skipped == Fails(Outcomes(load, events))
  {
    SkippedInStep(load, events);
    LiveSumZero(After(Init(load), events).workers);
  }

  // ------------------------------------------------------------------ the two ways to miscount

  const ONE_JOB := Load({7}, [Job(7, "2026-08-01", "7|2026-08-01")], [], true)
  const KEY := "7|2026-08-01"

  /** The state of a call for one job, with its worker at `w`. */
  function OneJob(w: Worker, l: Ledger): State {
    State([ONE_JOB.jobs], [w], l, false)
  }

  /** The run is legal and has come to this point. */
  ghost predicate Reached(events: seq<Event>, w: Worker, l: Ledger, done: seq<Outcome>) {
    Legal(Init(ONE_JOB), events) && After(Init(ONE_JOB), events) == OneJob(w, l) && Outcomes(ONE_JOB, events) == done
  }

  /** A run of one event more. */
  lemma OneMore(events: seq<Event>, w: Worker, l: Ledger, done: seq<Outcome>, e: Event)
    requires Reached(events, w, l, done) && Enabled(OneJob(w, l), e) && !e.Unavailable?
    ensures Reached(events + [e], NextWorker(OneJob(w, l), e), NextLedger(OneJob(w, l), e), done + Settles(OneJob(w, l), e))
  {
    assert (events + [e])[..|events|] == events;
    assert OneJob(w, l).workers[e.c := NextWorker(OneJob(w, l), e)] == [NextWorker(OneJob(w, l), e)];
  }

  lemma StartOneJob()
    ensures Reached([], Waiting, EmptyLedger(ONE_JOB), [])
  {
    var jobs := ONE_JOB.jobs;
    assert jobs[..0] == [];
    assert Pending([], jobs) == jobs;
  }

  /** The stream opens and one announced line is read. */
  lemma ReadOne(line: Line) returns (events: seq<Event>)
    requires line.peek.Some?
    ensures Reached(events, Reading([line]), NoteReceived(EmptyLedger(ONE_JOB), line.peek.value), [])
  {
    var l := EmptyLedger(ONE_JOB);
    StartOneJob();
    OneMore([], Waiting, l, [], Start(0));
    OneMore([] + [Start(0)], Reading([]), l, [], Read(0, line));
    assert [] + [line] == [line];
    assert NotesOf(line.peek)[..0] == [] && NoteAll(l, []) == l;
    events := [] + [Start(0)] + [Read(0, line)];
  }

  const BROKEN_LINE := Line(Some(Note(KEY, false)), None)

  /** The broken line is read, announced and dropped by the parse phase. */
  lemma BrokenLineParsed() returns (events: seq<Event>, l: Ledger)
    ensures Reached(events, Parsing([BROKEN_LINE], 1), l, []) && l == EmptyLedger(ONE_JOB).(counted := {KEY}, loaded := 1)
  {
    l := NoteReceived(EmptyLedger(ONE_JOB), Note(KEY, false));
    events := ReadOne(BROKEN_LINE);
    OneMore(events, Reading([BROKEN_LINE]), l, [], EndRead(0));
    events := events + [EndRead(0)];
    OneMore(events, Parsing([BROKEN_LINE], 0), l, [], Parse(0));
    events := events + [Parse(0)];
  }

  lemma BrokenLineAnswersNothing(l: Ledger)
    ensures AbsorbRows(l, ONE_JOB.jobs, ByKey([BROKEN_LINE])) == l
    ensures BatchOutcomes(ONE_JOB.jobs, [BROKEN_LINE]) == []
    ensures StillMissing(ONE_JOB.jobs, Received([BROKEN_LINE])) == ONE_JOB.jobs
  {
    assert ByKey([BROKEN_LINE]) == map[] && Refused([BROKEN_LINE]) == [];
    assert ONE_JOB.jobs[..0] == [];
  }

  /** The direct fetch of the one job ends the run. */
  lemma FetchOne(events: seq<Event>, l: Ledger, rows: Option<Rows>)
    requires Reached(events, Direct(ONE_JOB.jobs), l, [])
    ensures Reached(events + [Fetched(0, 0, rows)], Direct([]), StoreRows(l, ONE_JOB.jobs[0], rows),
                    [Outcome(ONE_JOB.jobs[0], rows)])
    ensures Complete(After(Init(ONE_JOB), events + [Fetched(0, 0, rows)]))
  {
    OneMore(events, Direct(ONE_JOB.jobs), l, [], Fetched(0, 0, rows));
    assert RemoveAt(ONE_JOB.jobs, 0) == [];
  }

  lemma FailsOne(o: Outcome)
    ensures Fails([o]) == if o.rows.None? then 1 else 0
  {
    assert [o][..0] == [] && Fails([]) == 0;
  }

  /**
   A line announced as received, then unparsable, whose retry fails: the job has no rows and
   nothing was skipped.
   */
  lemma UnparsableLineNotSkipped() returns (events: seq<Event>)
    ensures Legal(Init(ONE_JOB), events) && Complete(After(Init(ONE_JOB), events))
    ensures Fails(Outcomes(ONE_JOB, events)) == 1
    ensures After(Init(ONE_JOB), events).ledger.skipped == 0
  {
    var l;
    events, l := BrokenLineParsed();
    BrokenLineAnswersNothing(l);
    OneMore(events, Parsing([BROKEN_LINE], 1), l, [], Absorb(0));
    events := events + [Absorb(0)];
    FetchOne(events, l, None);
    events := events + [Fetched(0, 0, None)];
    FailsOne(Outcome(ONE_JOB.jobs[0], None));
  }

  const REFUSED_LINE := Line(Some(Note(KEY, true)), Some(ParsedRow(KEY, true, [])))

  /** The day is announced as failed, then the stream breaks. */
  lemma RefusedThenBroken() returns (events: seq<Event>, l: Ledger)
    ensures Reached(events, Direct(ONE_JOB.jobs), l, [])
    ensures l == EmptyLedger(ONE_JOB).(counted := {KEY}, loaded := 1, skipped := 1)
  {
    l := NoteReceived(EmptyLedger(ONE_JOB), Note(KEY, true));
    events := ReadOne(REFUSED_LINE);
    OneMore(events, Reading([REFUSED_LINE]), l, [], Break(0));
    events := events + [Break(0)];
  }

  /**
   A day announced as failed before the stream breaks, whose retry succeeds: its rows are held, yet
   it is counted as skipped, and with no other job the endpoint is given up.
   */
  lemma RecoveredDayStillSkipped(rows: Rows) returns (events: seq<Event>)
    ensures Legal(Init(ONE_JOB), events) && Complete(After(Init(ONE_JOB), events))
    ensures var s := After(Init(ONE_JOB), events);
      && Fails(Outcomes(ONE_JOB, events)) == 0 && s.ledger.skipped == 1
      && 7 in s.ledger.rowsByUser && s.ledger.rowsByUser[7] == rows && Finish(ONE_JOB, s) == DayUnavailable
  {
    var l;
    events, l := RefusedThenBroken();
    FetchOne(events, l, Some(rows));
    events := events + [Fetched(0, 0, Some(rows))];
    FailsOne(Outcome(ONE_JOB.jobs[0], Some(rows)));
    assert [] + rows == rows;
  }
}
