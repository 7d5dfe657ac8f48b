/** The progress counters of the user-day loader: `loaded`, `skipped` and the set `counted`. */
module DayProgress {
  import opened Seqs
  import opened BoundedCache
  import opened Ndjson
  import opened UserDays
  import opened DayLoader
  import opened DayLoaderProofs

  // ------------------------------------------------------------------ for every server

  ghost predicate Tally(l: Ledger) {
    l.loaded == |l.counted| && 0 <= l.skipped <= l.loaded
  }

  lemma {:induction false} NoteAllTally(l: Ledger, notes: seq<Note>)
    requires Tally(l)
    ensures Tally(NoteAll(l, notes))
  {
    if notes != [] {
      NoteAllTally(l, notes[..|notes| - 1]);
    }
  }

  lemma {:induction false} AbsorbKeepsCounts(l: Ledger, chunk: seq<Job>, byKey: map<string, Rows>)
    ensures var r := AbsorbRows(l, chunk, byKey);
      r.counted == l.counted && r.loaded == l.loaded && r.skipped == l.skipped
  {
    if chunk != [] {
      AbsorbKeepsCounts(l, chunk[..|chunk| - 1], byKey);
    }
  }

  ghost function OutcomeKeys(outcomes: seq<Outcome>): set<string> {
    set o | o in outcomes :: o.job.key
  }

  lemma OutcomeKeysConcat(a: seq<Outcome>, b: seq<Outcome>)
    ensures OutcomeKeys(a + b) == OutcomeKeys(a) + OutcomeKeys(b)
  {
    assert forall o :: o in a + b <==> o in a || o in b;
  }

  lemma {:induction false} SeedOutcomesAre(cache: DayCache, jobs: seq<Job>)
    ensures forall o :: o in SeedOutcomes(cache, jobs) ==> o.job in jobs && o.rows.Some?
    ensures OutcomeKeys(SeedOutcomes(cache, jobs)) <= Keys(jobs)
  {
    if jobs != [] {
      SeedOutcomesAre(cache, jobs[..|jobs| - 1]);
    }
  }

  lemma {:induction false} SeedCounted(l: Ledger, jobs: seq<Job>)
    requires l.counted == {}
    ensures Seed(l, jobs).counted == OutcomeKeys(SeedOutcomes(l.cache, jobs))
  {
    if jobs != [] {
      var init, job := jobs[..|jobs| - 1], jobs[|jobs| - 1];
      SeedCounted(l, init);
      OutcomeKeysConcat(SeedOutcomes(l.cache, init), SeedOutcome(l.cache, job));
      if Get(l.cache, job.key).Some? {
        assert SeedOutcome(l.cache, job)[0] in SeedOutcome(l.cache, job);
        assert OutcomeKeys(SeedOutcome(l.cache, job)) == {job.key};
      }
    }
  }

  lemma {:induction false} SeedTally(l: Ledger, jobs: seq<Job>)
    requires DistinctJobs(jobs) && l.counted == {} && l.loaded == 0 && l.skipped == 0
    ensures Tally(Seed(l, jobs)) && Seed(l, jobs).skipped == 0
  {
    if jobs != [] {
      var init := jobs[..|jobs| - 1];
      SeedTally(l, init);
      SeedCounted(l, init);
      SeedOutcomesAre(l.cache, init);
      assert jobs[|jobs| - 1].key !in Keys(init);
    }
  }

  /** Always: `loaded` counts the set `counted`, and no more is skipped than loaded. */
  lemma {:induction false} LoadedIsCounted(load: Load, events: seq<Event>)
    requires DistinctJobs(load.jobs) && Legal(Init(load), events)
    ensures Tally(After(Init(load), events).ledger)
  {
    if events == [] {
      SeedTally(EmptyLedger(load), load.jobs);
    } else {
      var init, e := events[..|events| - 1], events[|events| - 1];
      LoadedIsCounted(load, init);
      var s := After(Init(load), init);
      match e {
        case Read(c, line) => NoteAllTally(s.ledger, NotesOf(line.peek));
        case Parse(c) => NoteAllTally(s.ledger, LateNotes(s.workers[c].stash[s.workers[c].at]));
        case Absorb(c) => AbsorbKeepsCounts(s.ledger, s.chunks[c], ByKey(s.workers[c].stash));
        case _ =>
      }
    }
  }

  // ------------------------------------------------------------------ a server that answers what was asked

  predicate LineWithin(keys: set<string>, line: Line) {
    (line.peek.Some? ==> line.peek.value.key in keys) && (line.row.Some? ==> line.row.value.key in keys)
  }

  /** The server announces only requested keys. */
  ghost predicate Requested(load: Load, e: Event) {
    match e
    case Read(_, line) => LineWithin(Keys(load.jobs), line)
    case AnswerJson(_, answers) => forall i :: 0 <= i < |answers| ==> LineWithin(Keys(load.jobs), PlainLine(answers[i]))
    case _ => true
  }

  /** When a line both peeks and parses, both give the same key. */
  predicate Agrees(line: Line) {
    line.peek.Some? && line.row.Some? ==> line.peek.value.key == line.row.value.key
  }

  ghost predicate Polite(load: Load, events: seq<Event>) {
    forall e :: e in events ==> Requested(load, e) && (e.Read? ==> Agrees(e.line))
  }

  /** A key this worker has announced so far. */
  predicate Announced(w: Worker, key: string) {
    match w
    case Reading(stash) => exists i :: 0 <= i < |stash| && PeekedAs(stash[i], key)
    case Parsing(stash, at) =>
      (exists i :: 0 <= i < |stash| && PeekedAs(stash[i], key))
      || exists i :: 0 <= i < at && i < |stash| && RowedAs(stash[i], key)
    case _ => false
  }

  predicate PeekedAs(line: Line, key: string) {
    line.peek.Some? && line.peek.value.key == key
  }

  predicate RowedAs(line: Line, key: string) {
    line.row.Some? && line.row.value.key == key
  }

  ghost predicate PoliteWorker(load: Load, w: Worker) {
    w.Reading? || w.Parsing? ==>
      forall i :: 0 <= i < |w.stash| ==> LineWithin(Keys(load.jobs), w.stash[i]) && Agrees(w.stash[i])
  }

  ghost predicate WorkerAccounted(counted: set<string>, w: Worker) {
    (w.Parsing? ==> w.at <= |w.stash|) && forall k :: Announced(w, k) ==> k in counted
  }

  ghost predicate OutcomesAccounted(counted: set<string>, outcomes: seq<Outcome>) {
    forall o :: o in outcomes ==> o.job.key in counted
  }

  lemma {:induction false} NoteAllCounts(l: Ledger, notes: seq<Note>)
    ensures NoteAll(l, notes).counted == l.counted + set n | n in notes :: n.key
  {
    if notes != [] {
      var init := notes[..|notes| - 1];
      NoteAllCounts(l, init);
      assert notes == init + [notes[|notes| - 1]];
    }
  }

  lemma {:induction false} BatchAnswered(chunk: seq<Job>, stash: seq<Line>)
    ensures forall o :: o in BatchOutcomes(chunk, stash) ==> o.job in chunk && o.job.key in Received(stash)
  {
    if chunk != [] {
      BatchAnswered(chunk[..|chunk| - 1], stash);
    }
  }

  /** Every key a finished parse answers has been announced. */
  lemma ReceivedIsAnnounced(stash: seq<Line>, key: string)
    requires key in Received(stash) && forall i :: 0 <= i < |stash| ==> Agrees(stash[i])
    ensures Announced(Parsing(stash, |stash|), key)
  {
    ByKeyMeaning(stash, key);
    RefusedMeaning(stash, key);
    var i :| 0 <= i < |stash| && (GoodLine(stash[i], key) || FailedLine(stash[i], key));
    assert RowedAs(stash[i], key);
  }

  /** The job an event of a running direct fetch settles is one of the jobs of the load. */
  lemma OpenJobIsJob(load: Load, events: seq<Event>, c: nat, job: Job)
    requires Legal(Init(load), events)
    requires WellFormed(After(Init(load), events)) && c < |After(Init(load), events).chunks|
    requires job in OpenJobs(After(Init(load), events).chunks[c], After(Init(load), events).workers[c])
    ensures job in load.jobs
  {
    JobsConserved(load, events);
    var s := After(Init(load), events);
    FlattenMember(Opens(s.chunks, s.workers), c, job);
    assert job in multiset(AllOpen(s));
    assert job in multiset(load.jobs);
  }

  lemma StepCounted(s: State, e: Event)
    requires Enabled(s, e)
    ensures var counted := Step(s, e).ledger.counted;
      counted == s.ledger.counted + match e
        case Read(_, line) => (set n | n in NotesOf(line.peek) :: n.key)
        case Parse(c) => (set n | n in LateNotes(s.workers[c].stash[s.workers[c].at]) :: n.key)
        case Fetched(c, i, _) => {s.workers[c].todo[i].key}
        case _ => {}
  {
    match e {
      case Read(_, line) => NoteAllCounts(s.ledger, NotesOf(line.peek));
      case Parse(c) => NoteAllCounts(s.ledger, LateNotes(s.workers[c].stash[s.workers[c].at]));
      case Absorb(c) => AbsorbKeepsCounts(s.ledger, s.chunks[c], ByKey(s.workers[c].stash));
      case _ =>
    }
  }

  /** One step keeps the acting worker accounted, and accounts for what the step settles. */
  lemma StepAccounted(load: Load, s: State, e: Event)
    requires Enabled(s, e) && Requested(load, e) && (e.Read? ==> Agrees(e.line))
    requires PoliteWorker(load, s.workers[e.c]) && WorkerAccounted(s.ledger.counted, s.workers[e.c])
    ensures PoliteWorker(load, NextWorker(s, e)) && WorkerAccounted(Step(s, e).ledger.counted, NextWorker(s, e))
    ensures OutcomesAccounted(Step(s, e).ledger.counted, Settles(s, e))
  {
    StepCounted(s, e);
    var w, w' := s.workers[e.c], NextWorker(s, e);
    var counted := Step(s, e).ledger.counted;
    match e {
      case Absorb(c) =>
        BatchAnswered(s.chunks[c], w.stash);
        forall o | o in Settles(s, e) ensures o.job.key in counted {
          ReceivedIsAnnounced(w.stash, o.job.key);
        }
      case AnswerJson(_, answers) =>
        forall k ensures !Announced(w', k) {
          assert forall i :: 0 <= i < |w'.stash| ==> w'.stash[i].peek.None?;
        }
      case Read(_, line) =>
        forall k | Announced(w', k) ensures k in counted {
          var i :| 0 <= i < |w'.stash| && PeekedAs(w'.stash[i], k);
          if i < |w.stash| {
            assert PeekedAs(w.stash[i], k) && Announced(w, k);
          } else {
            assert line.peek.value in NotesOf(line.peek);
          }
        }
      case EndRead(_) =>
        forall k | Announced(w', k) ensures k in counted {
          assert Announced(w, k);
        }
      case Parse(_) =>
        forall k | Announced(w', k) ensures k in counted {
          if !Announced(w, k) {
            var line := w.stash[w.at];
            assert RowedAs(line, k);
            assert line.peek.None? by {
              if line.peek.Some? {
                assert PeekedAs(line, k);
              }
            }
            assert Note(k, line.row.value.failed) in LateNotes(line);
          }
        }
      case _ =>
    }
  }

  ghost predicate AllAccounted(load: Load, s: State) {
    && WellFormed(s)
    && s.ledger.counted <= Keys(load.jobs)
    && forall c :: 0 <= c < |s.workers| ==> AccountedAt(load, s, c)
  }

  ghost predicate AccountedAt(load: Load, s: State, c: nat)
    requires c < |s.workers|
  {
    PoliteWorker(load, s.workers[c]) && WorkerAccounted(s.ledger.counted, s.workers[c])
  }

  lemma AccountedStep(load: Load, s: State, e: Event)
    requires Enabled(s, e) && Requested(load, e) && (e.Read? ==> Agrees(e.line)) && AllAccounted(load, s)
    requires e.Fetched? ==> s.workers[e.c].todo[e.i].key in Keys(load.jobs)
    ensures AllAccounted(load, Step(s, e))
    ensures OutcomesAccounted(Step(s, e).ledger.counted, Settles(s, e))
  {
    assert AccountedAt(load, s, e.c);
    StepAccounted(load, s, e);
    StepCounted(s, e);
    forall c | 0 <= c < |s.workers| ensures AccountedAt(load, Step(s, e), c) {
      assert AccountedAt(load, s, c);
    }
  }

  lemma {:induction false} RunAccounted(load: Load, events: seq<Event>)
    requires DistinctJobs(load.jobs) && Legal(Init(load), events) && Polite(load, events)
    ensures AllAccounted(load, After(Init(load), events))
    ensures OutcomesAccounted(After(Init(load), events).ledger.counted, Outcomes(load, events))
  {
    if events == [] {
      SeedAccounted(load);
    } else {
      var init, e := events[..|events| - 1], events[|events| - 1];
      assert forall x :: x in init ==> x in events;
      RunAccounted(load, init);
      var s := After(Init(load), init);
      if e.Fetched? {
        OpenJobIsJob(load, init, e.c, s.workers[e.c].todo[e.i]);
      }
      AccountedStep(load, s, e);
      StepCounted(s, e);
    }
  }

  lemma SeedAccounted(load: Load)
    requires DistinctJobs(load.jobs)
    ensures AllAccounted(load, Init(load))
    ensures OutcomesAccounted(Init(load).ledger.counted, SeedOutcomes(load.cache, load.jobs))
  {
    SeedCounted(EmptyLedger(load), load.jobs);
    SeedOutcomesAre(load.cache, load.jobs);
  }

  ghost predicate RequestedOnly(load: Load, events: seq<Event>) {
    forall e :: e in events ==> Requested(load, e)
  }

  ghost predicate StashWithin(keys: set<string>, w: Worker) {
    w.Reading? || w.Parsing? ==> forall i :: 0 <= i < |w.stash| ==> LineWithin(keys, w.stash[i])
  }

  ghost predicate CountsWithin(load: Load, s: State) {
    && WellFormed(s) && s.ledger.counted <= Keys(load.jobs)
    && forall c :: 0 <= c < |s.workers| ==> StashWithin(Keys(load.jobs), s.workers[c])
  }

  lemma StepWithin(load: Load, s: State, e: Event)
    requires Enabled(s, e) && CountsWithin(load, s) && Requested(load, e)
    requires e.Fetched? ==> s.workers[e.c].todo[e.i].key in Keys(load.jobs)
    ensures CountsWithin(load, Step(s, e))
  {
    StepCounted(s, e);
    assert StashWithin(Keys(load.jobs), s.workers[e.c]);
    assert StashWithin(Keys(load.jobs), NextWorker(s, e));
  }

  lemma {:induction false} RunWithin(load: Load, events: seq<Event>)
    requires DistinctJobs(load.jobs) && Legal(Init(load), events) && RequestedOnly(load, events)
    ensures CountsWithin(load, After(Init(load), events))
  {
    if events == [] {
      SeedAccounted(load);
    } else {
      var init, e := events[..|events| - 1], events[|events| - 1];
      assert forall x :: x in init ==> x in events;
      RunWithin(load, init);
      var s := After(Init(load), init);
      if e.Fetched? {
        OpenJobIsJob(load, init, e.c, s.workers[e.c].todo[e.i]);
      }
      StepWithin(load, s, e);
    }
  }

  /** If the server announces only requested keys, `loaded` never exceeds the job count. */
  lemma LoadedWithinJobs(load: Load, events: seq<Event>)
    requires DistinctJobs(load.jobs) && Legal(Init(load), events) && RequestedOnly(load, events)
    ensures After(Init(load), events).ledger.loaded <= |load.jobs|
  {
    LoadedIsCounted(load, events);
    RunWithin(load, events);
    KeysSize(load.jobs);
    SubsetSize(After(Init(load), events).ledger.counted, Keys(load.jobs));
  }

  /**
   If moreover a line's peeked and parsed keys agree, `loaded` equals the job count when the run
   completes, and then the day endpoint is given up exactly when every job was skipped.
   */
  lemma ProgressExact(load: Load, events: seq<Event>)
    requires DistinctJobs(load.jobs) && Legal(Init(load), events) && Polite(load, events)
    ensures var s := After(Init(load), events);
      && s.ledger.loaded <= |load.jobs|
      && (Complete(s) ==>
        && s.ledger.loaded == |load.jobs|
        && (Finish(load, s).DayUnavailable? <==> load.jobs != [] && s.ledger.skipped == |load.jobs|))
  {
    LoadedIsCounted(load, events);
    RunAccounted(load, events);
    KeysSize(load.jobs);
    var s := After(Init(load), events);
    SubsetSize(s.ledger.counted, Keys(load.jobs));
    if Complete(s) {
      EveryJobSettledOnce(load, events);
      var done := Outcomes(load, events);
      forall j | j in load.jobs ensures j.key in s.ledger.counted {
        assert j in multiset(load.jobs) && j in JobsOf(done);
        var i :| 0 <= i < |done| && JobsOf(done)[i] == j;
        assert done[i] in done;
      }
      assert s.ledger.counted == Keys(load.jobs);
    }
  }
}
