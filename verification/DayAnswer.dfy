/** What one call of the user-day loader answers: the trips of every vehicle, and how many days are missing. */
module DayAnswer {
  import opened Seqs
  import opened Tracks
  import opened Trips
  import opened TripGrouping
  import opened UserDays
  import opened DayLoader
  import opened DayLoaderProofs
  import opened DayProgress
  import opened DayWords
  import opened DayOrders

  // ------------------------------------------------------------------ the rows of the answer

  lemma NoPending(cache: DayCache)
    ensures Pending(cache, []) == [] && SeedOutcomes(cache, []) == []
  {
  }

  lemma NothingEnabled(load: Load, e: Event)
    requires load.jobs == []
    ensures !Enabled(Init(load), e)
  {
    NoPending(load.cache);
  }

  /** Without jobs nothing can happen. */
  lemma {:induction false} NothingToDo(load: Load, events: seq<Event>)
    requires load.jobs == [] && Legal(Init(load), events)
    ensures events == []
  {
    if events != [] {
      NothingToDo(load, events[..|events| - 1]);
      NothingEnabled(load, events[|events| - 1]);
    }
  }

  /** Without jobs no word is heard. */
  lemma NothingHeard(load: Load, events: seq<Event>)
    requires load.jobs == [] && Legal(Init(load), events)
    ensures FirstFailures(Words(load, events)) == {}
  {
    NothingToDo(load, events);
    NoPending(load.cache);
    assert Words(load, []) == [];
  }

  /**
   What a finished load answers, unless it gives the endpoint up: for exactly the requested vehicles the
   rows that fetching each day once would give, and the number of days whose first word was a failure.
   It gives up exactly when there are jobs and every key heard of, one for each job, was a failure first.
   */
  lemma AnswerIsNaive(load: Load, source: Source, events: seq<Event>)
    requires DistinctJobs(load.jobs) && Finished(load, source, events)
    ensures var verdict := Finish(load, After(Init(load), events));
      verdict.Returned? ==>
        && verdict.rowsByUser.Keys == load.users
        && (forall u :: u in load.users ==> multiset(verdict.rowsByUser[u]) == multiset(NaiveRows(source, load.jobs, u)))
        && verdict.skipped == |FirstFailures(Words(load, events))|
    ensures Finish(load, After(Init(load), events)).DayUnavailable?
      <==> load.jobs != [] && |FirstFailures(Words(load, events))| == |Heard(Words(load, events))| == |load.jobs|
  {
    EveryJobSettledOnce(load, events);
    forall u | u in load.users
      ensures u in After(Init(load), events).ledger.rowsByUser
      ensures multiset(After(Init(load), events).ledger.rowsByUser[u]) == multiset(NaiveRows(source, load.jobs, u))
    {
      RefinesNaiveLoader(load, source, events, u);
    }
    SkippedIsFirstFailures(load, events);
    LoadedIsCounted(load, events);
    if load.jobs == [] {
      NothingHeard(load, events);
    }
  }

  // ------------------------------------------------------------------ the trips of the answer

  datatype TripAnswer = Loaded(byUserId: map<nat, seq<Trip>>, skipped: int) | GivenUp

  function AnswerOf(clock: Clock, verdict: Verdict): TripAnswer {
    match verdict
    case Returned(rows, skipped) => Loaded(map u | u in rows :: Group(clock, u, rows[u]), skipped)
    case DayUnavailable => GivenUp
  }

  /** What the call answers from the state its pool left. */
  function Answer(clock: Clock, load: Load, s: State): TripAnswer {
    AnswerOf(clock, Finish(load, s))
  }

  /** The last loop of the call: every vehicle's rows are grouped. */
  method GroupAll(clock: Clock, rowsByUser: map<nat, Rows>) returns (byUserId: map<nat, seq<Trip>>)
    ensures byUserId.Keys == rowsByUser.Keys
    ensures forall u :: u in byUserId ==> byUserId[u] == Group(clock, u, rowsByUser[u])
  {
    byUserId := map[];
    var left := rowsByUser.Keys;
    while left != {}
      invariant left <= rowsByUser.Keys && byUserId.Keys == rowsByUser.Keys - left
      invariant forall u :: u in byUserId ==> byUserId[u] == Group(clock, u, rowsByUser[u])
      decreases |left|
    {
      var u;
      u, left := Take(left);
      var trips := GroupRowsIntoTrips(clock, u, rowsByUser[u]);
      byUserId := byUserId[u := trips];
    }
  }

  method AnswerCall(clock: Clock, call: DayLoad) returns (answer: TripAnswer)
    ensures answer == Answer(clock, call.load, call.View())
  {
    var verdict := call.Conclude();
    if verdict.DayUnavailable? {
      return GivenUp;
    }
    var byUserId := GroupAll(clock, verdict.rowsByUser);
    assert byUserId == map u | u in verdict.rowsByUser :: Group(clock, u, verdict.rowsByUser[u]);
    answer := Loaded(byUserId, verdict.skipped);
  }

  /** The labels stand or not for the rows, in whatever order these came. */
  lemma StandsPermutes(clock: Clock, rows: seq<DayTrackRow>, other: seq<DayTrackRow>, which: Label)
    requires multiset(rows) == multiset(other)
    ensures Stands(clock, rows, which) ==> Stands(clock, other, which)
  {
    if Stands(clock, rows, which) {
      var i :| 0 <= i < |rows| && rows[i].point.utc != "" && Belongs(clock, rows[i], which);
      PermutationSize(rows, other);
      assert rows[i] in Elements(other);
      var j :| 0 <= j < |other| && other[j] == rows[i];
    }
  }

  /** One trip for each recording and each UTC day without one among `naive`, made of the rows as they came. */
  ghost predicate HasEveryTrip(clock: Clock, userId: int, rows: Rows, naive: Rows, trips: seq<Trip>) {
    exists labels :: OneTripEach(clock, userId, rows, trips, labels)
      && forall which :: which in labels <==> Stands(clock, naive, which)
  }

  lemma GroupedHasEveryTrip(clock: Clock, userId: int, rows: Rows, naive: Rows)
    requires multiset(rows) == multiset(naive)
    ensures HasEveryTrip(clock, userId, rows, naive, Group(clock, userId, rows))
  {
    var labels := GroupsAreLabels(clock, userId, rows);
    forall which ensures which in labels <==> Stands(clock, naive, which) {
      StandsPermutes(clock, rows, naive, which);
      StandsPermutes(clock, naive, rows, which);
    }
  }

  /** What the answer carries for each requested vehicle, and nothing for others. */
  ghost predicate AnswersFor(clock: Clock, load: Load, source: Source, verdict: Verdict, answer: TripAnswer)
    requires verdict.Returned? && answer.Loaded?
  {
    answer.byUserId.Keys == load.users == verdict.rowsByUser.Keys
    && forall u :: u in load.users ==>
         HasEveryTrip(clock, u, verdict.rowsByUser[u], NaiveRows(source, load.jobs, u), answer.byUserId[u])
  }

  lemma AnswerFromRows(clock: Clock, load: Load, source: Source, verdict: Verdict)
    requires verdict.Returned? && verdict.rowsByUser.Keys == load.users
    requires forall u :: u in load.users ==> multiset(verdict.rowsByUser[u]) == multiset(NaiveRows(source, load.jobs, u))
    ensures AnswersFor(clock, load, source, verdict, AnswerOf(clock, verdict))
  {
    forall u | u in load.users
      ensures HasEveryTrip(clock, u, verdict.rowsByUser[u], NaiveRows(source, load.jobs, u), AnswerOf(clock, verdict).byUserId[u])
    {
      GroupedHasEveryTrip(clock, u, verdict.rowsByUser[u], NaiveRows(source, load.jobs, u));
    }
  }

  /**
   The answer has, for every requested vehicle, one trip for each recording and one for each UTC day
   without one that fetching each day once would bring, whatever the interleaving; and the number of
   days whose first word was a failure.
   */
  lemma AnswerHasEveryTrip(clock: Clock, load: Load, source: Source, events: seq<Event>)
    requires DistinctJobs(load.jobs) && Finished(load, source, events)
    ensures var verdict, answer := Finish(load, After(Init(load), events)), Answer(clock, load, After(Init(load), events));
      if verdict.DayUnavailable? then answer == GivenUp
      else answer.Loaded? && AnswersFor(clock, load, source, verdict, answer)
           && answer.skipped == |FirstFailures(Words(load, events))|
  {
    AnswerIsNaive(load, source, events);
    if Finish(load, After(Init(load), events)).Returned? {
      AnswerFromRows(clock, load, source, Finish(load, After(Init(load), events)));
    }
  }
}
