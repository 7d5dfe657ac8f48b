/**
 What `skipped` counts, for every server: a key is counted by the first word heard about it.
 */
module DayWords {
  import opened Seqs
  import opened Ndjson
  import opened UserDays
  import opened DayLoader
  import opened DayLoaderProofs
  import opened DayProgress
  import opened DaySkips

  // ------------------------------------------------------------------ everything heard about keys

  /** What an event says about keys: announcements of a batch, and the result of a direct fetch. */
  function WordsOf(s: State, e: Event): seq<Note>
    requires Enabled(s, e)
  {
    match e
    case Read(_, line) => NotesOf(line.peek)
    case Parse(c) => LateNotes(s.workers[c].stash[s.workers[c].at])
    case Fetched(c, i, rows) => [Note(s.workers[c].todo[i].key, rows.None?)]
    case _ => []
  }

  function Cached(o: Outcome): Note {
    Note(o.job.key, false)
  }

  /** All words of a run in order, the cached days first. */
  function Words(load: Load, events: seq<Event>): seq<Note>
    requires Legal(Init(load), events)
  {
    if events == [] then Map(Cached, SeedOutcomes(load.cache, load.jobs))
    else
      var init := events[..|events| - 1];
      Words(load, init) + WordsOf(After(Init(load), init), events[|events| - 1])
  }

  ghost function Heard(words: seq<Note>): set<string> {
    set i | 0 <= i < |words| :: words[i].key
  }

  /** The keys whose first word is a failure. */
  ghost function FirstFailures(words: seq<Note>): set<string> {
    if words == [] then {}
    else
      var init, last := words[..|words| - 1], words[|words| - 1];
      if last.failed && last.key !in Heard(init) then FirstFailures(init) + {last.key} else FirstFailures(init)
  }

  ghost predicate FirstWord(words: seq<Note>, i: nat)
    requires i < |words|
  {
    forall j :: 0 <= j < i ==> words[j].key != words[i].key
  }

  lemma HeardSnoc(words: seq<Note>, note: Note)
    ensures Heard(words + [note]) == Heard(words) + {note.key}
  {
    var all := words + [note];
    assert all[|words|] == note;
    forall i | 0 <= i < |words| ensures words[i].key in Heard(all) {
      assert all[i] == words[i];
    }
  }

  lemma FailuresSnoc(words: seq<Note>, note: Note)
    ensures FirstFailures(words + [note])
      == if note.failed && note.key !in Heard(words) then FirstFailures(words) + {note.key} else FirstFailures(words)
  {
    assert (words + [note])[..|words|] == words;
  }

  lemma FirstWordSnoc(words: seq<Note>, note: Note)
    ensures forall i :: 0 <= i < |words| ==> (FirstWord(words + [note], i) <==> FirstWord(words, i))
    ensures FirstWord(words + [note], |words|) <==> note.key !in Heard(words)
  {
    var all := words + [note];
    assert all[|words|] == note;
    assert forall i :: 0 <= i < |words| ==> all[i] == words[i];
  }

  /** A key is among the first failures exactly when its first word is a failure. */
  lemma {:induction false} FirstFailuresMeaning(words: seq<Note>, key: string)
    ensures key in FirstFailures(words)
      <==> exists i :: 0 <= i < |words| && words[i].key == key && words[i].failed && FirstWord(words, i)
  {
    if words != [] {
      var init, last := words[..|words| - 1], words[|words| - 1];
      FirstFailuresMeaning(init, key);
      assert words == init + [last];
      FirstWordSnoc(init, last);
      assert forall i :: 0 <= i < |init| ==> init[i] == words[i];
    }
  }

  lemma {:induction false} FailuresHeard(words: seq<Note>)
    ensures FirstFailures(words) <= Heard(words)
  {
    if words != [] {
      FailuresHeard(words[..|words| - 1]);
      assert words == words[..|words| - 1] + [words[|words| - 1]];
      HeardSnoc(words[..|words| - 1], words[|words| - 1]);
    }
  }

  // ------------------------------------------------------------------ the counters follow the words

  ghost predicate Recorded(l: Ledger, words: seq<Note>) {
    l.counted == Heard(words) && l.skipped == |FirstFailures(words)|
  }

  lemma RecordOne(l: Ledger, words: seq<Note>, note: Note)
    requires Recorded(l, words)
    ensures Recorded(NoteReceived(l, note), words + [note])
  {
    HeardSnoc(words, note);
    FailuresSnoc(words, note);
    FailuresHeard(words);
  }

  lemma {:induction false} RecordAll(l: Ledger, words: seq<Note>, notes: seq<Note>)
    requires Recorded(l, words)
    ensures Recorded(NoteAll(l, notes), words + notes)
  {
    if notes == [] {
      assert words + notes == words;
    } else {
      var init, last := notes[..|notes| - 1], notes[|notes| - 1];
      RecordAll(l, words, init);
      RecordOne(NoteAll(l, init), words + init, last);
      assert words + notes == (words + init) + [last];
    }
  }

  lemma RecordStep(s: State, e: Event, words: seq<Note>)
    requires Enabled(s, e) && Recorded(s.ledger, words)
    ensures Recorded(Step(s, e).ledger, words + WordsOf(s, e))
  {
    assert words + [] == words;
    match e {
      case Read(_, line) => RecordAll(s.ledger, words, NotesOf(line.peek));
      case Parse(c) => RecordAll(s.ledger, words, LateNotes(s.workers[c].stash[s.workers[c].at]));
      case Absorb(c) => AbsorbKeepsCounts(s.ledger, s.chunks[c], ByKey(s.workers[c].stash));
      case Fetched(c, i, rows) => RecordOne(s.ledger, words, Note(s.workers[c].todo[i].key, rows.None?));
      case _ =>
    }
  }

  lemma {:induction false} NoFailures(words: seq<Note>)
    requires forall i :: 0 <= i < |words| ==> !words[i].failed
    ensures FirstFailures(words) == {}
  {
    if words != [] {
      NoFailures(words[..|words| - 1]);
    }
  }

  lemma SeedRecorded(load: Load)
    requires DistinctJobs(load.jobs)
    ensures Recorded(Init(load).ledger, Words(load, []))
  {
    var done, words := SeedOutcomes(load.cache, load.jobs), Words(load, []);
    SeedCounted(EmptyLedger(load), load.jobs);
    SeedTally(EmptyLedger(load), load.jobs);
    NoFailures(words);
    forall key ensures key in OutcomeKeys(done) <==> key in Heard(words) {
      if o :| o in done && o.job.key == key {
        var i :| 0 <= i < |done| && done[i] == o;
        assert words[i].key == key;
      }
      if i :| 0 <= i < |words| && words[i].key == key {
        assert done[i] in done;
      }
    }
  }

  /** Always, whatever the server says: `skipped` is the number of keys whose first word is a failure. */
  lemma {:induction false} SkippedIsFirstFailures(load: Load, events: seq<Event>)
    requires DistinctJobs(load.jobs) && Legal(Init(load), events)
    ensures Recorded(After(Init(load), events).ledger, Words(load, events))
  {
    if events == [] {
      SeedRecorded(load);
    } else {
      var init := events[..|events| - 1];
      SkippedIsFirstFailures(load, init);
      RecordStep(After(Init(load), init), events[|events| - 1], Words(load, init));
    }
  }

  // ------------------------------------------------------------------ first words against outcomes

  /** The keys of the jobs settled without rows. */
  ghost function WithoutRows(outcomes: seq<Outcome>): set<string> {
    set i | 0 <= i < |outcomes| && outcomes[i].rows.None? :: outcomes[i].job.key
  }

  lemma WithoutRowsSnoc(outcomes: seq<Outcome>, o: Outcome)
    ensures WithoutRows(outcomes + [o]) == if o.rows.None? then WithoutRows(outcomes) + {o.job.key} else WithoutRows(outcomes)
  {
    var all := outcomes + [o];
    assert all[|outcomes|] == o;
    assert forall i :: 0 <= i < |outcomes| ==> all[i] == outcomes[i];
    forall key ensures key in WithoutRows(outcomes) || (o.rows.None? && key == o.job.key) <==> key in WithoutRows(all) {
      if i :| 0 <= i < |outcomes| && outcomes[i].rows.None? && outcomes[i].job.key == key {
        assert all[i].rows.None?;
      }
    }
  }

  lemma {:induction false} FailsIsWithoutRows(outcomes: seq<Outcome>)
    requires DistinctJobs(JobsOf(outcomes))
    ensures Fails(outcomes) == |WithoutRows(outcomes)|
  {
    if outcomes != [] {
      var init, o := outcomes[..|outcomes| - 1], outcomes[|outcomes| - 1];
      assert outcomes == init + [o];
      JobsOfConcat(init, [o]);
      assert forall i :: 0 <= i < |init| ==> JobsOf(outcomes)[i] == JobsOf(init)[i] == init[i].job;
      assert JobsOf(outcomes)[|init|] == o.job;
      FailsIsWithoutRows(init);
      WithoutRowsSnoc(init, o);
      assert o.job.key !in WithoutRows(init);
    }
  }

  lemma DistinctPermuted(a: seq<Job>, b: seq<Job>)
    requires DistinctJobs(b) && multiset(a) == multiset(b)
    ensures DistinctJobs(a)
  {
    forall i, j | 0 <= i < j < |a| ensures a[i].key != a[j].key {
      SameElement(a, b, i);
      SameElement(a, b, j);
      if a[i] == a[j] {
        TwiceInBoth(a, b, i, j);
      }
    }
  }

  lemma SameElement(a: seq<Job>, b: seq<Job>, i: nat)
    requires multiset(a) == multiset(b) && i < |a|
    ensures a[i] in b
  {
    PermutationSize(a, b);
    assert a[i] in Elements(b);
  }

  lemma TwiceInBoth(a: seq<Job>, b: seq<Job>, i: nat, j: nat)
    requires multiset(a) == multiset(b) && i < j < |a| && a[i] == a[j]
    ensures !DistinctJobs(b)
  {
    assert a[..j][i] == a[i];
    assert a == a[..j] + [a[j]] + a[j + 1..];
    assert multiset(a)[a[j]] >= 2;
    OnceInDistinct(b, a[j]);
  }

  lemma {:induction false} OnceInDistinct(b: seq<Job>, x: Job)
    ensures DistinctJobs(b) ==> multiset(b)[x] <= 1
  {
    if b != [] {
      var init, last := b[..|b| - 1], b[|b| - 1];
      assert b == init + [last];
      OnceInDistinct(init, x);
      if last == x && x in init {
        var i :| 0 <= i < |init| && init[i] == x;
        assert b[i] == b[|init|];
      }
    }
  }

  /** In a completed run every job is settled once, under its own key. */
  lemma SettledOnce(load: Load, events: seq<Event>)
    requires DistinctJobs(load.jobs) && Legal(Init(load), events) && Complete(After(Init(load), events))
    ensures DistinctJobs(JobsOf(Outcomes(load, events)))
    ensures forall i :: 0 <= i < |Outcomes(load, events)| ==> Outcomes(load, events)[i].job in load.jobs
  {
    EveryJobSettledOnce(load, events);
    DistinctPermuted(JobsOf(Outcomes(load, events)), load.jobs);
    forall i | 0 <= i < |Outcomes(load, events)| ensures Outcomes(load, events)[i].job in load.jobs {
      SameElement(JobsOf(Outcomes(load, events)), load.jobs, i);
    }
  }
}
