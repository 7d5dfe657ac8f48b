/**
 When the keys counted as skipped are the jobs without rows: exactly when what a batch announces
 first about a key agrees with what follows for that key.
 */
module DayTruth {
  import opened Seqs
  import opened Ndjson
  import opened UserDays
  import opened DayLoader
  import opened DayLoaderProofs
  import opened DayProgress
  import opened DaySkips
  import opened DayWords

  // ------------------------------------------------------------------ the first word about a key

  /** Who spoke first about a key: nobody yet, the cache, a batch, or the key's own direct fetch. */
  datatype Hearing = Nothing | FromCache | FromBatch(failed: bool) | FromFetch(failed: bool)

  function WordBy(e: Event, note: Note): Hearing {
    if e.Fetched? then FromFetch(note.failed) else FromBatch(note.failed)
  }

  function FirstHeard(load: Load, events: seq<Event>, key: string): Hearing
    requires Legal(Init(load), events)
  {
    if events == [] then
      if exists i :: 0 <= i < |SeedOutcomes(load.cache, load.jobs)| && SeedOutcomes(load.cache, load.jobs)[i].job.key == key
      then FromCache else Nothing
    else
      var init, e := events[..|events| - 1], events[|events| - 1];
      var before, words := FirstHeard(load, init, key), WordsOf(After(Init(load), init), e);
      if before == Nothing && words != [] && words[0].key == key then WordBy(e, words[0]) else before
  }

  predicate SaidFailed(h: Hearing) {
    (h.FromBatch? || h.FromFetch?) && h.failed
  }

  lemma OneWord(s: State, e: Event)
    requires Enabled(s, e)
    ensures |WordsOf(s, e)| <= 1
  {
  }

  /** The words of a run are what `FirstHeard` remembers. */
  lemma {:induction false} FirstHeardIsFirstWord(load: Load, events: seq<Event>, key: string)
    requires Legal(Init(load), events)
    ensures FirstHeard(load, events, key) == Nothing <==> key !in Heard(Words(load, events))
    ensures SaidFailed(FirstHeard(load, events, key)) <==> key in FirstFailures(Words(load, events))
  {
    if events == [] {
      var done, words := SeedOutcomes(load.cache, load.jobs), Words(load, []);
      assert forall i :: 0 <= i < |words| ==> words[i].key == done[i].job.key && !words[i].failed;
      NoFailures(words);
    } else {
      var init, e := events[..|events| - 1], events[|events| - 1];
      var s := After(Init(load), init);
      var before, words := Words(load, init), WordsOf(s, e);
      FirstHeardIsFirstWord(load, init, key);
      OneWord(s, e);
      if words == [] {
        assert before + words == before;
      } else {
        assert words == [words[0]];
        HeardSnoc(before, words[0]);
        FailuresSnoc(before, words[0]);
        FailuresHeard(before);
      }
    }
  }

  // ------------------------------------------------------------------ what follows for a key

  /** How a key ends: a good line or a refusal of its completed batch, or the result of its own fetch. */
  datatype Ending = Open | Stored | GoodAnswer | Refusal | Retried(failed: bool)

  predicate EndsFailed(e: Ending) {
    e == Refusal || (e.Retried? && e.failed)
  }

  ghost predicate HasGoodLine(stash: seq<Line>, key: string) {
    exists i :: 0 <= i < |stash| && GoodLine(stash[i], key)
  }

  ghost predicate HasRefusal(stash: seq<Line>, key: string) {
    exists i :: 0 <= i < |stash| && FailedLine(stash[i], key)
  }

  /** What an event ends the key with, if it does. */
  ghost function EndingAt(s: State, e: Event, key: string): Ending
    requires Enabled(s, e)
  {
    match e
    case Absorb(c) =>
      if key !in Keys(s.chunks[c]) then Open
      else if HasGoodLine(s.workers[c].stash, key) then GoodAnswer
      else if HasRefusal(s.workers[c].stash, key) then Refusal
      else Open
    case Fetched(c, i, rows) => if s.workers[c].todo[i].key == key then Retried(rows.None?) else Open
    case _ => Open
  }

  ghost function EndingOf(load: Load, events: seq<Event>, key: string): Ending
    requires Legal(Init(load), events)
  {
    if events == [] then
      if exists i :: 0 <= i < |SeedOutcomes(load.cache, load.jobs)| && SeedOutcomes(load.cache, load.jobs)[i].job.key == key
      then Stored else Open
    else
      var init := events[..|events| - 1];
      var last := EndingAt(After(Init(load), init), events[|events| - 1], key);
      if last == Open then EndingOf(load, init, key) else last
  }

  // ------------------------------------------------------------------ endings are outcomes

  ghost predicate Settled(outcomes: seq<Outcome>, key: string) {
    exists i :: 0 <= i < |outcomes| && outcomes[i].job.key == key
  }

  lemma SettledConcat(a: seq<Outcome>, b: seq<Outcome>, key: string)
    ensures Settled(a + b, key) <==> Settled(a, key) || Settled(b, key)
    ensures key in WithoutRows(a + b) <==> key in WithoutRows(a) || key in WithoutRows(b)
  {
    var all := a + b;
    assert forall i :: 0 <= i < |a| ==> all[i] == a[i];
    assert forall i :: 0 <= i < |b| ==> all[|a| + i] == b[i];
    if Settled(b, key) {
      var i :| 0 <= i < |b| && b[i].job.key == key;
      assert all[|a| + i].job.key == key;
    }
    if key in WithoutRows(b) {
      var i :| 0 <= i < |b| && b[i].rows.None? && b[i].job.key == key;
      assert all[|a| + i] == b[i];
    }
    if key in WithoutRows(a) {
      var i :| 0 <= i < |a| && a[i].rows.None? && a[i].job.key == key;
      assert all[i] == a[i];
    }
  }

  lemma DistinctApart(a: seq<Outcome>, b: seq<Outcome>, key: string)
    requires DistinctJobs(JobsOf(a + b)) && Settled(b, key)
    ensures !Settled(a, key) && DistinctJobs(JobsOf(a))
  {
    JobsOfConcat(a, b);
    var all := JobsOf(a + b);
    assert forall i :: 0 <= i < |a| ==> all[i] == a[i].job == JobsOf(a)[i];
    var j :| 0 <= j < |b| && b[j].job.key == key;
    assert all[|a| + j] == b[j].job;
  }

  lemma DistinctFront(a: seq<Outcome>, b: seq<Outcome>)
    requires DistinctJobs(JobsOf(a + b))
    ensures DistinctJobs(JobsOf(a))
  {
    JobsOfConcat(a, b);
    assert forall i :: 0 <= i < |a| ==> JobsOf(a + b)[i] == JobsOf(a)[i];
  }

  /** A completed batch settles the keys its lines answer, and fails those it only refuses. */
  lemma {:induction false} BatchEndings(chunk: seq<Job>, stash: seq<Line>, key: string)
    ensures Settled(BatchOutcomes(chunk, stash), key)
      <==> key in Keys(chunk) && (HasGoodLine(stash, key) || HasRefusal(stash, key))
    ensures key in WithoutRows(BatchOutcomes(chunk, stash))
      <==> key in Keys(chunk) && !HasGoodLine(stash, key) && HasRefusal(stash, key)
  {
    if chunk != [] {
      var init, job := chunk[..|chunk| - 1], chunk[|chunk| - 1];
      BatchEndings(init, stash, key);
      assert chunk == init + [job];
      ByKeyMeaning(stash, job.key);
      RefusedMeaning(stash, job.key);
      SettledConcat(BatchOutcomes(init, stash), BatchOutcome(job, stash), key);
      OneEnding(job, stash, key);
    }
  }

  lemma OneEnding(job: Job, stash: seq<Line>, key: string)
    ensures Settled(BatchOutcome(job, stash), key)
      <==> key == job.key && (HasGoodLine(stash, key) || HasRefusal(stash, key))
    ensures key in WithoutRows(BatchOutcome(job, stash))
      <==> key == job.key && !HasGoodLine(stash, key) && HasRefusal(stash, key)
  {
    ByKeyMeaning(stash, job.key);
    RefusedMeaning(stash, job.key);
    var done := BatchOutcome(job, stash);
    if done != [] {
      assert done == [done[0]] && done[0].job == job;
    }
  }

  /** What an event settles is what it ends. */
  lemma EndingIsSettling(s: State, e: Event, key: string)
    requires Enabled(s, e)
    ensures EndingAt(s, e, key) != Open <==> Settled(Settles(s, e), key)
    ensures EndsFailed(EndingAt(s, e, key)) <==> key in WithoutRows(Settles(s, e))
  {
    if e.Absorb? {
      BatchEndings(s.chunks[e.c], s.workers[e.c].stash, key);
    } else if e.Fetched? {
      assert Settles(s, e)[0] == Outcome(s.workers[e.c].todo[e.i], e.rows);
    }
  }

  /** A key ends with a failure exactly when its job is settled without rows. */
  lemma {:induction false} EndingIsOutcome(load: Load, events: seq<Event>, key: string)
    requires Legal(Init(load), events) && DistinctJobs(JobsOf(Outcomes(load, events)))
    ensures EndingOf(load, events, key) != Open <==> Settled(Outcomes(load, events), key)
    ensures EndsFailed(EndingOf(load, events, key)) <==> key in WithoutRows(Outcomes(load, events))
  {
    if events == [] {
      SeedOutcomesAre(load.cache, load.jobs);
      var done := SeedOutcomes(load.cache, load.jobs);
      assert forall i :: 0 <= i < |done| ==> done[i] in done;
    } else {
      var init, e := events[..|events| - 1], events[|events| - 1];
      var s := After(Init(load), init);
      var a, b := Outcomes(load, init), Settles(s, e);
      DistinctFront(a, b);
      EndingIsOutcome(load, init, key);
      EndingIsSettling(s, e, key);
      SettledConcat(a, b, key);
      if Settled(b, key) {
        DistinctApart(a, b, key);
        FailsOnlySettled(a, key);
      }
    }
  }

  lemma FailsOnlySettled(outcomes: seq<Outcome>, key: string)
    ensures key in WithoutRows(outcomes) ==> Settled(outcomes, key)
  {
  }

  // ------------------------------------------------------------------ a key's own word is never wrong

  ghost predicate HasOutcome(outcomes: seq<Outcome>, key: string, failed: bool) {
    exists i :: 0 <= i < |outcomes| && outcomes[i].job.key == key && outcomes[i].rows.None? == failed
  }

  lemma OutcomeKept(a: seq<Outcome>, b: seq<Outcome>, key: string, failed: bool)
    requires HasOutcome(a, key, failed) || HasOutcome(b, key, failed)
    ensures HasOutcome(a + b, key, failed)
  {
    if HasOutcome(a, key, failed) {
      var i :| 0 <= i < |a| && a[i].job.key == key && a[i].rows.None? == failed;
      assert (a + b)[i] == a[i];
    } else {
      var i :| 0 <= i < |b| && b[i].job.key == key && b[i].rows.None? == failed;
      assert (a + b)[|a| + i] == b[i];
    }
  }

  lemma FetchSettles(s: State, e: Event)
    requires Enabled(s, e) && e.Fetched?
    ensures HasOutcome(Settles(s, e), WordsOf(s, e)[0].key, WordsOf(s, e)[0].failed)
  {
    assert Settles(s, e)[0] == Outcome(s.workers[e.c].todo[e.i], e.rows);
  }

  /** A fetch that is the first word about its key is also how the key ends. */
  lemma {:induction false} OwnWordSettles(load: Load, events: seq<Event>, key: string)
    requires Legal(Init(load), events) && FirstHeard(load, events, key).FromFetch?
    ensures HasOutcome(Outcomes(load, events), key, FirstHeard(load, events, key).failed)
  {
    var init, e := events[..|events| - 1], events[|events| - 1];
    var s := After(Init(load), init);
    if FirstHeard(load, init, key) == Nothing {
      FetchSettles(s, e);
    } else {
      OwnWordSettles(load, init, key);
    }
    OutcomeKept(Outcomes(load, init), Settles(s, e), key, FirstHeard(load, events, key).failed);
  }

  lemma SeededOutcome(cache: DayCache, jobs: seq<Job>, key: string)
    requires exists i :: 0 <= i < |SeedOutcomes(cache, jobs)| && SeedOutcomes(cache, jobs)[i].job.key == key
    ensures HasOutcome(SeedOutcomes(cache, jobs), key, false)
  {
    SeedOutcomesAre(cache, jobs);
    var done := SeedOutcomes(cache, jobs);
    var i :| 0 <= i < |done| && done[i].job.key == key;
    assert done[i] in done;
  }

  lemma {:induction false} CachedWordSettles(load: Load, events: seq<Event>, key: string)
    requires Legal(Init(load), events) && FirstHeard(load, events, key).FromCache?
    ensures HasOutcome(Outcomes(load, events), key, false)
  {
    if events == [] {
      SeededOutcome(load.cache, load.jobs, key);
    } else {
      var init := events[..|events| - 1];
      CachedWordSettles(load, init, key);
      OutcomeKept(Outcomes(load, init), Settles(After(Init(load), init), events[|events| - 1]), key, false);
    }
  }

  lemma SettledOneWay(outcomes: seq<Outcome>, key: string, failed: bool)
    requires DistinctJobs(JobsOf(outcomes)) && HasOutcome(outcomes, key, failed)
    ensures key in WithoutRows(outcomes) <==> failed
  {
    var i :| 0 <= i < |outcomes| && outcomes[i].job.key == key && outcomes[i].rows.None? == failed;
    forall j | 0 <= j < |outcomes| && outcomes[j].job.key == key ensures j == i {
      assert JobsOf(outcomes)[j].key == JobsOf(outcomes)[i].key;
    }
  }

  /** A key first heard of through its own fetch, or found in the cache, is never counted wrongly. */
  lemma OwnWordIsTrue(load: Load, events: seq<Event>, key: string)
    requires DistinctJobs(load.jobs) && Legal(Init(load), events) && Complete(After(Init(load), events))
    requires FirstHeard(load, events, key).FromFetch? || FirstHeard(load, events, key).FromCache?
    ensures SaidFailed(FirstHeard(load, events, key)) <==> EndsFailed(EndingOf(load, events, key))
  {
    SettledOnce(load, events);
    EndingIsOutcome(load, events, key);
    var done := Outcomes(load, events);
    if FirstHeard(load, events, key).FromFetch? {
      OwnWordSettles(load, events, key);
      SettledOneWay(done, key, FirstHeard(load, events, key).failed);
    } else {
      CachedWordSettles(load, events, key);
      SettledOneWay(done, key, false);
    }
  }

  // ------------------------------------------------------------------ the exact condition

  /** What a batch announced first about a key agrees with what followed; a key it never announced was not refused. */
  ghost predicate AnnouncedTrue(load: Load, events: seq<Event>, key: string)
    requires Legal(Init(load), events)
  {
    match FirstHeard(load, events, key)
    case FromBatch(failed) => failed <==> EndsFailed(EndingOf(load, events, key))
    case Nothing => EndingOf(load, events, key) != Refusal
    case _ => true
  }

  /** A key fetched directly has been heard of. */
  lemma {:induction false} RetriesAreHeard(load: Load, events: seq<Event>, key: string)
    requires Legal(Init(load), events) && FirstHeard(load, events, key) == Nothing
    ensures !EndingOf(load, events, key).Retried?
  {
    if events != [] {
      RetriesAreHeard(load, events[..|events| - 1], key);
    }
  }

  /** Key by key: counted as skipped exactly when settled without rows, exactly when announced truly. */
  lemma KeyCountedRightly(load: Load, events: seq<Event>, key: string)
    requires DistinctJobs(load.jobs) && Legal(Init(load), events) && Complete(After(Init(load), events))
    ensures (key in FirstFailures(Words(load, events)) <==> key in WithoutRows(Outcomes(load, events)))
      <==> AnnouncedTrue(load, events, key)
  {
    SettledOnce(load, events);
    FirstHeardIsFirstWord(load, events, key);
    EndingIsOutcome(load, events, key);
    match FirstHeard(load, events, key) {
      case FromBatch(_) =>
      case Nothing => RetriesAreHeard(load, events, key);
      case _ => OwnWordIsTrue(load, events, key);
    }
  }

  /**
   For every server and every completed run, the keys counted as skipped are the keys of the jobs
   without rows exactly when, for every key, what a batch announced first agrees with what followed:
   a good line, a refusal, or the retry.
   */
  lemma SkippedKeysRightIff(load: Load, events: seq<Event>)
    requires DistinctJobs(load.jobs) && Legal(Init(load), events) && Complete(After(Init(load), events))
    ensures FirstFailures(Words(load, events)) == WithoutRows(Outcomes(load, events))
      <==> forall key :: AnnouncedTrue(load, events, key)
  {
    forall key ensures (key in FirstFailures(Words(load, events)) <==> key in WithoutRows(Outcomes(load, events)))
      <==> AnnouncedTrue(load, events, key)
    {
      KeyCountedRightly(load, events, key);
    }
  }

  /** A key that was never asked for ends with nothing, so only a failure announced for it is wrong. */
  lemma ForeignKeys(load: Load, events: seq<Event>, key: string)
    requires DistinctJobs(load.jobs) && Legal(Init(load), events) && Complete(After(Init(load), events))
    requires key !in Keys(load.jobs)
    ensures EndingOf(load, events, key) == Open
    ensures AnnouncedTrue(load, events, key) <==> key !in FirstFailures(Words(load, events))
  {
    SettledOnce(load, events);
    EndingIsOutcome(load, events, key);
    KeyCountedRightly(load, events, key);
    FailsOnlySettled(Outcomes(load, events), key);
  }

  /** When the server announces only requested keys and lines agree with their peeks, no answered key goes unheard. */
  lemma AnsweredIsHeard(load: Load, events: seq<Event>, key: string)
    requires DistinctJobs(load.jobs) && Legal(Init(load), events) && Complete(After(Init(load), events)) && Polite(load, events)
    requires FirstHeard(load, events, key) == Nothing
    ensures EndingOf(load, events, key) == Open
  {
    SettledOnce(load, events);
    EndingIsOutcome(load, events, key);
    FirstHeardIsFirstWord(load, events, key);
    SkippedIsFirstFailures(load, events);
    RunAccounted(load, events);
    SettledIsCounted(After(Init(load), events).ledger.counted, Outcomes(load, events), key);
  }

  lemma SettledIsCounted(counted: set<string>, outcomes: seq<Outcome>, key: string)
    requires OutcomesAccounted(counted, outcomes)
    ensures Settled(outcomes, key) ==> key in counted
  {
    if Settled(outcomes, key) {
      var i :| 0 <= i < |outcomes| && outcomes[i].job.key == key;
      assert outcomes[i] in outcomes;
    }
  }

  lemma Difference<T>(a: set<T>, b: set<T>)
    ensures |a| + |b - a| == |b| + |a - b|
  {
    assert a == (a * b) + (a - b) && b == (a * b) + (b - a);
  }

  /** So then `skipped` is the number of jobs without rows; in general it is off by the keys announced wrongly. */
  lemma SkippedOff(load: Load, events: seq<Event>)
    requires DistinctJobs(load.jobs) && Legal(Init(load), events) && Complete(After(Init(load), events))
    ensures var said, settled := FirstFailures(Words(load, events)), WithoutRows(Outcomes(load, events));
      && After(Init(load), events).ledger.skipped + |settled - said| == Fails(Outcomes(load, events)) + |said - settled|
      && (After(Init(load), events).ledger.skipped == Fails(Outcomes(load, events)) <==> |said - settled| == |settled - said|)
    ensures (forall key :: AnnouncedTrue(load, events, key)) ==>
      After(Init(load), events).ledger.skipped == Fails(Outcomes(load, events))
  {
    SkippedIsFirstFailures(load, events);
    SettledOnce(load, events);
    FailsIsWithoutRows(Outcomes(load, events));
    Difference(FirstFailures(Words(load, events)), WithoutRows(Outcomes(load, events)));
    SkippedKeysRightIff(load, events);
  }

  // ------------------------------------------------------------------ progress and giving up

  ghost predicate AllHeard(load: Load, events: seq<Event>)
    requires Legal(Init(load), events)
  {
    forall j :: j in load.jobs ==> FirstHeard(load, events, j.key) != Nothing
  }

  ghost predicate AllFailedFirst(load: Load, events: seq<Event>)
    requires Legal(Init(load), events)
  {
    forall j :: j in load.jobs ==> SaidFailed(FirstHeard(load, events, j.key))
  }

  /** Sets of keys of the jobs, by size. */
  lemma AllKeysIff(jobs: seq<Job>, keys: set<string>)
    requires DistinctJobs(jobs) && keys <= Keys(jobs)
    ensures |keys| <= |jobs|
    ensures |keys| == |jobs| <==> forall j :: j in jobs ==> j.key in keys
  {
    KeysSize(jobs);
    SubsetSize(keys, Keys(jobs));
    KeysWithin(jobs, keys);
    assert Keys(jobs) <= keys <==> keys == Keys(jobs);
  }

  lemma HeardIff(load: Load, events: seq<Event>)
    requires Legal(Init(load), events)
    ensures AllHeard(load, events) <==> forall j :: j in load.jobs ==> j.key in Heard(Words(load, events))
    ensures AllFailedFirst(load, events) <==> forall j :: j in load.jobs ==> j.key in FirstFailures(Words(load, events))
  {
    forall j | j in load.jobs
      ensures FirstHeard(load, events, j.key) != Nothing <==> j.key in Heard(Words(load, events))
      ensures SaidFailed(FirstHeard(load, events, j.key)) <==> j.key in FirstFailures(Words(load, events))
    {
      FirstHeardIsFirstWord(load, events, j.key);
    }
  }

  /**
   If the server announces only requested keys: `loaded` has reached the job count exactly when every
   job has been heard of, and the day endpoint is given up exactly when there are jobs and the first word
   about each of them is a failure.
   */
  lemma ProgressIff(load: Load, events: seq<Event>)
    requires DistinctJobs(load.jobs) && Legal(Init(load), events) && RequestedOnly(load, events)
    ensures After(Init(load), events).ledger.loaded == |load.jobs| <==> AllHeard(load, events)
    ensures Finish(load, After(Init(load), events)).DayUnavailable? <==> load.jobs != [] && AllFailedFirst(load, events)
  {
    var heard, failed := Heard(Words(load, events)), FirstFailures(Words(load, events));
    SkippedIsFirstFailures(load, events);
    RunWithin(load, events);
    LoadedIsCounted(load, events);
    FailuresHeard(Words(load, events));
    AllKeysIff(load.jobs, heard);
    AllKeysIff(load.jobs, failed);
    SubsetSize(failed, heard);
    HeardIff(load, events);
  }

  lemma KeysWithin(jobs: seq<Job>, keys: set<string>)
    ensures Keys(jobs) <= keys <==> forall j :: j in jobs ==> j.key in keys
  {
    if Keys(jobs) <= keys {
      forall j | j in jobs ensures j.key in keys {
        assert j.key in Keys(jobs);
      }
    }
  }
}
