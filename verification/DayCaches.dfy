/** What the day cache holds after any loads, and which days a load has to fetch again. */
module DayCaches {
  import opened Seqs
  import opened BoundedCache
  import opened Ndjson
  import opened UserDays
  import opened DayLoader
  import opened DayLoaderProofs

  type DayWrite = Entry<string, Rows>

  /** A day settled with rows is written once, at that moment. */
  function DayWritten(o: Outcome): seq<DayWrite> {
    if o.rows.Some? then [Entry(o.job.key, o.rows.value)] else []
  }

  function DaysWritten(outcomes: seq<Outcome>): seq<DayWrite> {
    FlatMap(DayWritten, outcomes)
  }

  lemma DaysWrittenConcat(a: seq<Outcome>, b: seq<Outcome>)
    ensures DaysWritten(a + b) == DaysWritten(a) + DaysWritten(b)
  {
    FlatMapConcat(DayWritten, a, b);
  }

  lemma OneWritten(o: Outcome)
    ensures DaysWritten([o]) == DayWritten(o)
  {
    assert FlatMap(DayWritten, [o]) == DayWritten(o) + FlatMap(DayWritten, []);
  }

  lemma ReplayOne(cache: DayCache, w: DayWrite)
    ensures Replay(cache, DAY_CACHE_MAX, [w]) == Remember(cache, DAY_CACHE_MAX, w.key, w.value)
    ensures Replay(cache, DAY_CACHE_MAX, []) == cache
  {
    assert [w][..0] == [];
  }

  /** One outcome more. */
  lemma ReplayOutcome(cache: DayCache, before: seq<Outcome>, o: Outcome)
    ensures Replay(cache, DAY_CACHE_MAX, DaysWritten(before + [o]))
      == Replay(Replay(cache, DAY_CACHE_MAX, DaysWritten(before)), DAY_CACHE_MAX, DayWritten(o))
  {
    DaysWrittenConcat(before, [o]);
    OneWritten(o);
    ReplayConcat(cache, DAY_CACHE_MAX, DaysWritten(before), DayWritten(o));
  }

  lemma {:induction false} AbsorbWrites(l: Ledger, chunk: seq<Job>, stash: seq<Line>)
    ensures AbsorbRows(l, chunk, ByKey(stash)).cache == Replay(l.cache, DAY_CACHE_MAX, DaysWritten(BatchOutcomes(chunk, stash)))
  {
    if chunk != [] {
      var init, job := chunk[..|chunk| - 1], chunk[|chunk| - 1];
      AbsorbWrites(l, init, stash);
      var done, more := BatchOutcomes(init, stash), BatchOutcome(job, stash);
      if more != [] {
        ReplayOutcome(l.cache, done, more[0]);
        assert more == [more[0]];
        if more[0].rows.Some? {
          ReplayOne(AbsorbRows(l, init, ByKey(stash)).cache, Entry(job.key, more[0].rows.value));
        }
      } else {
        assert done + more == done;
      }
    }
  }

  lemma StepWrites(s: State, e: Event)
    requires Enabled(s, e)
    ensures Step(s, e).ledger.cache == Replay(s.ledger.cache, DAY_CACHE_MAX, DaysWritten(Settles(s, e)))
  {
    var w := s.workers[e.c];
    match e {
      case Read(_, line) => NotesKeepRows(s.ledger, NotesOf(line.peek));
      case Parse(_) => NotesKeepRows(s.ledger, LateNotes(w.stash[w.at]));
      case Absorb(c) => AbsorbWrites(s.ledger, s.chunks[c], w.stash);
      case Fetched(_, i, rows) =>
        OneWritten(Outcome(w.todo[i], rows));
        if rows.Some? {
          ReplayOne(s.ledger.cache, Entry(w.todo[i].key, rows.value));
        }
      case _ =>
    }
  }

  /** The days a run writes, in the order they are settled. A day found in the cache is not written again. */
  function RunWrites(load: Load, events: seq<Event>): seq<DayWrite>
    requires Legal(Init(load), events)
  {
    if events == [] then []
    else
      var init := events[..|events| - 1];
      RunWrites(load, init) + DaysWritten(Settles(After(Init(load), init), events[|events| - 1]))
  }

  lemma {:induction false} CacheIsReplay(load: Load, events: seq<Event>)
    requires Legal(Init(load), events)
    ensures After(Init(load), events).ledger.cache == Replay(load.cache, DAY_CACHE_MAX, RunWrites(load, events))
  {
    if events == [] {
      SeedGrew(EmptyLedger(load), load.jobs);
    } else {
      var init, e := events[..|events| - 1], events[|events| - 1];
      CacheIsReplay(load, init);
      var s := After(Init(load), init);
      StepWrites(s, e);
      ReplayConcat(load.cache, DAY_CACHE_MAX, RunWrites(load, init), DaysWritten(Settles(s, e)));
    }
  }

  // ------------------------------------------------------------------ one load after another

  /** Calls one after another, each with the cache the one before it left, whatever servers answered. */
  ghost predicate Linked(pasts: seq<Past>) {
    pasts == [] ||
    var earlier, last := pasts[..|pasts| - 1], pasts[|pasts| - 1];
    Linked(earlier) && (forall i :: 0 <= i < |earlier| ==> Legal(Init(earlier[i].load), earlier[i].events))
    && last.load.cache == CacheLeft(earlier) && Legal(Init(last.load), last.events)
  }

  lemma {:induction false} LinkedLegal(pasts: seq<Past>)
    requires Linked(pasts)
    ensures forall i :: 0 <= i < |pasts| ==> Legal(Init(pasts[i].load), pasts[i].events)
  {
    if pasts != [] {
      var earlier := pasts[..|pasts| - 1];
      LinkedLegal(earlier);
      assert forall i :: 0 <= i < |earlier| ==> earlier[i] == pasts[i];
    }
  }

  lemma {:induction false} ChainIsLinked(source: Source, pasts: seq<Past>)
    requires Chain(source, pasts)
    ensures Linked(pasts)
  {
    if pasts != [] {
      ChainIsLinked(source, pasts[..|pasts| - 1]);
    }
  }

  /** Every write of all the loads. */
  ghost function AllWrites(pasts: seq<Past>): seq<DayWrite>
    requires forall i :: 0 <= i < |pasts| ==> Legal(Init(pasts[i].load), pasts[i].events)
  {
    if pasts == [] then []
    else AllWrites(pasts[..|pasts| - 1]) + RunWrites(pasts[|pasts| - 1].load, pasts[|pasts| - 1].events)
  }

  lemma {:induction false} ReplayOfAll(pasts: seq<Past>)
    requires Linked(pasts)
    ensures forall i :: 0 <= i < |pasts| ==> Legal(Init(pasts[i].load), pasts[i].events)
    ensures CacheLeft(pasts) == Replay([], DAY_CACHE_MAX, AllWrites(pasts))
  {
    LinkedLegal(pasts);
    if pasts != [] {
      var earlier, last := pasts[..|pasts| - 1], pasts[|pasts| - 1];
      ReplayOfAll(earlier);
      CacheIsReplay(last.load, last.events);
      ReplayConcat([], DAY_CACHE_MAX, AllWrites(earlier), RunWrites(last.load, last.events));
    }
  }

  /** After any loads, finished or aborted, the day cache holds the last 1200 days by last write. */
  lemma DayCacheIsNewest(pasts: seq<Past>)
    requires Linked(pasts)
    ensures forall i :: 0 <= i < |pasts| ==> Legal(Init(pasts[i].load), pasts[i].events)
    ensures CacheLeft(pasts) == Newest(LastWrites(AllWrites(pasts)), 1200)
  {
    ReplayOfAll(pasts);
    CacheHoldsNewest(DAY_CACHE_MAX, AllWrites(pasts));
  }

  /** Against a fixed source these are the source's answers. */
  lemma ChainCacheIsNewest(source: Source, pasts: seq<Past>)
    requires Chain(source, pasts)
    ensures forall i :: 0 <= i < |pasts| ==> Legal(Init(pasts[i].load), pasts[i].events)
    ensures CacheLeft(pasts) == Newest(LastWrites(AllWrites(pasts)), 1200) && Faithful(CacheLeft(pasts), source)
  {
    ChainIsLinked(source, pasts);
    DayCacheIsNewest(pasts);
    CacheFaithfulThroughLoads(source, pasts);
  }

  lemma {:induction false} PendingIff(cache: DayCache, jobs: seq<Job>)
    ensures forall j :: j in Pending(cache, jobs) <==> j in jobs && !Has(cache, j.key)
  {
    if jobs != [] {
      PendingIff(cache, jobs[..|jobs| - 1]);
      assert jobs == jobs[..|jobs| - 1] + [jobs[|jobs| - 1]];
    }
  }

  /** So a later load fetches exactly the days that are not among the last 1200 written. */
  lemma RefetchedIff(pasts: seq<Past>, load: Load, job: Job)
    requires Linked(pasts + [Past(load, [])])
    ensures forall i :: 0 <= i < |pasts| ==> Legal(Init(pasts[i].load), pasts[i].events)
    ensures job in Pending(load.cache, load.jobs)
      <==> job in load.jobs && !Has(Newest(LastWrites(AllWrites(pasts)), 1200), job.key)
  {
    assert (pasts + [Past(load, [])])[..|pasts|] == pasts;
    DayCacheIsNewest(pasts);
    PendingIff(load.cache, load.jobs);
  }
}
