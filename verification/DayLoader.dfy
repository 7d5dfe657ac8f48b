/**
 The user-day loader: cached days first, then chunks of the rest through the batch endpoint, with
 a direct fetch for whatever the batch did not answer. Everything between two awaits is one event,
 and the events of the chunks at work interleave in any order. Two pools hold the work back: chunks
 start in order, at most eight of them unfinished, and each fetches directly eight days at a time.
 */
module DayLoader {
  import opened Seqs
  import opened Tracks
  import opened BoundedCache
  import opened Ndjson
  import opened UserDays

  const DAY_CACHE_MAX := 1200
  const USER_DAY_BATCH_SIZE := 320
  const TRACK_BATCH_BROWSER := 8
  const TRACK_FETCH_CONCURRENCY := 8

  type Rows = seq<DayTrackRow>
  type DayCache = seq<Entry<string, Rows>>

  /** What one call of the loader is given. `useBatch` is `dayEndpoint !== "no"`. */
  datatype Load = Load(users: set<nat>, jobs: seq<Job>, cache: DayCache, useBatch: bool)

  /** The Maps, Set and counters the closures of one call share, and the module-level cache. */
  datatype Ledger = Ledger(
    rowsByUser: map<nat, Rows>, counted: set<string>, loaded: int, skipped: int, cache: DayCache)

  /** Where the worker of one chunk stands. A chunk is finished at `Direct([])`. */
  datatype Worker =
    | Waiting
    | Reading(stash: seq<Line>)
    | Parsing(stash: seq<Line>, at: nat)
    | Direct(todo: seq<Job>)
    | Gone

  datatype State = State(chunks: seq<seq<Job>>, workers: seq<Worker>, ledger: Ledger, rejected: bool)

  /**
   What can happen to a chunk. `Break` is whatever makes the batch throw: a stream that breaks while
   it is read, or an answer found malformed after some of its keys were announced.
   */
  datatype Event =
    | Start(c: nat)
    | Read(c: nat, line: Line)
    | AnswerJson(c: nat, answers: seq<ParsedRow>)
    | EndRead(c: nat)
    | Parse(c: nat)
    | Absorb(c: nat)
    | Break(c: nat)
    | Unavailable(c: nat)
    | Fetched(c: nat, i: nat, rows: Option<Rows>)

  /** How a job was settled: with rows, or as failed. */
  datatype Outcome = Outcome(job: Job, rows: Option<Rows>)

  // ------------------------------------------------------------------ ledger updates

  /** `rowsByUser.get(userId)?.push(...rows)`. */
  function Push(m: map<nat, Rows>, userId: nat, rows: Rows): map<nat, Rows> {
    if userId in m then m[userId := m[userId] + rows] else m
  }

  function StoreRows(l: Ledger, job: Job, rows: Option<Rows>): Ledger {
    var l1 := if job.key in l.counted then l
              else l.(counted := l.counted + {job.key}, loaded := l.loaded + 1,
                      skipped := l.skipped + if rows.None? then 1 else 0);
    if rows.None? then l1 else Deliver(l1, job, rows.value)
  }

  /** Remember a day's rows and hand them to its vehicle. */
  function Deliver(l: Ledger, job: Job, rows: Rows): Ledger {
    l.(cache := Remember(l.cache, DAY_CACHE_MAX, job.key, rows), rowsByUser := Push(l.rowsByUser, job.userId, rows))
  }

  function NoteReceived(l: Ledger, note: Note): Ledger {
    if note.key in l.counted then l
    else l.(counted := l.counted + {note.key}, loaded := l.loaded + 1,
            skipped := l.skipped + if note.failed then 1 else 0)
  }

  function NoteAll(l: Ledger, notes: seq<Note>): Ledger {
    if notes == [] then l else NoteReceived(NoteAll(l, notes[..|notes| - 1]), notes[|notes| - 1])
  }

  /** The rows a completed batch carries, pushed in chunk order. */
  function AbsorbRows(l: Ledger, chunk: seq<Job>, byKey: map<string, Rows>): Ledger {
    if chunk == [] then l
    else
      var job := chunk[|chunk| - 1];
      var l1 := AbsorbRows(l, chunk[..|chunk| - 1], byKey);
      if job.key in byKey then Deliver(l1, job, byKey[job.key]) else l1
  }

  function CountCached(l: Ledger, job: Job, rows: Rows): Ledger {
    l.(rowsByUser := Push(l.rowsByUser, job.userId, rows), counted := l.counted + {job.key}, loaded := l.loaded + 1)
  }

  /** The cached days, taken in job order before anything is fetched. */
  function Seed(l: Ledger, jobs: seq<Job>): Ledger {
    if jobs == [] then l
    else
      var job := jobs[|jobs| - 1];
      var l1 := Seed(l, jobs[..|jobs| - 1]);
      match Get(l.cache, job.key)
      case None => l1
      case Some(rows) => CountCached(l1, job, rows)
  }

  function Pending(cache: DayCache, jobs: seq<Job>): seq<Job> {
    if jobs == [] then []
    else
      var job := jobs[|jobs| - 1];
      Pending(cache, jobs[..|jobs| - 1]) + if Get(cache, job.key).None? then [job] else []
  }

  /** One more job of the first pass: counted when cached, left to fetch otherwise. */
  lemma FirstPassStep(l: Ledger, cache: DayCache, jobs: seq<Job>, i: nat)
    requires i < |jobs| && l.cache == cache
    ensures var l1, cached := Seed(l, jobs[..i]), Get(cache, jobs[i].key);
      && Seed(l, jobs[..i + 1]) == (if cached.None? then l1 else CountCached(l1, jobs[i], cached.value))
      && Pending(cache, jobs[..i + 1]) == Pending(cache, jobs[..i]) + (if cached.None? then [jobs[i]] else [])
  {
    assert jobs[..i + 1][..i] == jobs[..i];
  }

  // ------------------------------------------------------------------ steps

  function EmptyLedger(load: Load): Ledger {
    Ledger(map u | u in load.users :: [], {}, 0, 0, load.cache)
  }

  function Init(load: Load): State {
    var pending := Pending(load.cache, load.jobs);
    var ledger := Seed(EmptyLedger(load), load.jobs);
    if load.useBatch then
      var chunks := Chunks(pending, USER_DAY_BATCH_SIZE);
      State(chunks, seq(|chunks|, i => Waiting), ledger, false)
    else State([pending], [Direct(pending)], ledger, false)
  }

  predicate WellFormed(s: State) {
    |s.workers| == |s.chunks|
  }

  function PlainLine(answer: ParsedRow): Line {
    Line(None, Some(answer))
  }

  /** A chunk not started, or finished: no runner of the pool is at it. A runner whose batch is gone stops for good. */
  predicate Idle(w: Worker) {
    w.Waiting? || w == Direct([])
  }

  /** How many runners of the pool are taken. */
  function Busy(workers: seq<Worker>): nat {
    if workers == [] then 0
    else Busy(workers[..|workers| - 1]) + if Idle(workers[|workers| - 1]) then 0 else 1
  }

  /** Chunks are started in order, by a runner that is free. */
  predicate MayStart(workers: seq<Worker>, c: nat) {
    c < |workers| && workers[c].Waiting? && Busy(workers) < TRACK_BATCH_BROWSER
    && forall i :: 0 <= i < c ==> !workers[i].Waiting?
  }

  /** Of the days left to fetch, the first eight are under way. */
  predicate Enabled(s: State, e: Event) {
    WellFormed(s) && e.c < |s.workers| &&
    var w := s.workers[e.c];
    match e
    case Start(c) => MayStart(s.workers, c)
    case Read(_, _) => w.Reading?
    case AnswerJson(_, _) => w == Reading([])
    case EndRead(_) => w.Reading?
    case Parse(_) => w.Parsing? && w.at < |w.stash|
    case Absorb(_) => w.Parsing? && w.at == |w.stash|
    case Break(_) => w.Reading? || w.Parsing?
    case Unavailable(_) => w == Reading([])
    case Fetched(_, i, _) => w.Direct? && i < |w.todo| && i < TRACK_FETCH_CONCURRENCY
  }

  /** Keys the batch answered, with data or with an explicit failure. */
  function Received(stash: seq<Line>): set<string> {
    ByKey(stash).Keys + set k | k in Refused(stash)
  }

  function NextWorker(s: State, e: Event): Worker
    requires Enabled(s, e)
  {
    var w := s.workers[e.c];
    match e
    case Start(_) => Reading([])
    case Read(_, line) => Reading(w.stash + [line])
    case AnswerJson(_, answers) => Parsing(Map(PlainLine, answers), 0)
    case EndRead(_) => Parsing(w.stash, 0)
    case Parse(_) => Parsing(w.stash, w.at + 1)
    case Absorb(_) => Direct(StillMissing(s.chunks[e.c], Received(w.stash)))
    case Break(_) => Direct(s.chunks[e.c])
    case Unavailable(_) => Gone
    case Fetched(_, i, _) => Direct(RemoveAt(w.todo, i))
  }

  function NextLedger(s: State, e: Event): Ledger
    requires Enabled(s, e)
  {
    var w := s.workers[e.c];
    match e
    case Read(_, line) => NoteAll(s.ledger, NotesOf(line.peek))
    case Parse(_) => NoteAll(s.ledger, LateNotes(w.stash[w.at]))
    case Absorb(_) => AbsorbRows(s.ledger, s.chunks[e.c], ByKey(w.stash))
    case Fetched(_, i, rows) => StoreRows(s.ledger, w.todo[i], rows)
    case _ => s.ledger
  }

  function Step(s: State, e: Event): State
    requires Enabled(s, e)
  {
    State(s.chunks, s.workers[e.c := NextWorker(s, e)], NextLedger(s, e), s.rejected || e.Unavailable?)
  }

  // ------------------------------------------------------------------ runs

  /** `events` can happen in this order from `s`. */
  predicate Legal(s: State, events: seq<Event>)
    decreases |events|, 0
  {
    events == [] || (Legal(s, events[..|events| - 1])
      && Enabled(After(s, events[..|events| - 1]), events[|events| - 1]))
  }

  function After(s: State, events: seq<Event>): State
    requires Legal(s, events)
    decreases |events|, 1
  {
    if events == [] then s else Step(After(s, events[..|events| - 1]), events[|events| - 1])
  }

  /** Every chunk finished and no batch reported the endpoint missing. */
  predicate Complete(s: State) {
    WellFormed(s) && !s.rejected && forall c :: 0 <= c < |s.workers| ==> s.workers[c] == Direct([])
  }

  datatype Verdict = Returned(rowsByUser: map<nat, Rows>, skipped: int) | DayUnavailable

  /** What the call does once the pool has drained. */
  function Finish(load: Load, s: State): Verdict {
    if load.jobs == [] then Returned(s.ledger.rowsByUser, 0)
    else if s.ledger.loaded == s.ledger.skipped && s.ledger.skipped == |load.jobs| then DayUnavailable
    else Returned(s.ledger.rowsByUser, s.ledger.skipped)
  }

  // ------------------------------------------------------------------ history of a run

  /** How a completed batch settles one job of its chunk: `[]` when it did not answer the key. */
  function BatchOutcome(job: Job, stash: seq<Line>): seq<Outcome> {
    if job.key in ByKey(stash) then [Outcome(job, Some(ByKey(stash)[job.key]))]
    else if job.key in Refused(stash) then [Outcome(job, None)]
    else []
  }

  function BatchOutcomes(chunk: seq<Job>, stash: seq<Line>): seq<Outcome> {
    if chunk == [] then []
    else BatchOutcomes(chunk[..|chunk| - 1], stash) + BatchOutcome(chunk[|chunk| - 1], stash)
  }

  /** The jobs an event settles, in order. */
  function Settles(s: State, e: Event): seq<Outcome>
    requires Enabled(s, e)
  {
    match e
    case Absorb(c) => BatchOutcomes(s.chunks[c], s.workers[c].stash)
    case Fetched(c, i, rows) => [Outcome(s.workers[c].todo[i], rows)]
    case _ => []
  }

  function SeedOutcome(cache: DayCache, job: Job): seq<Outcome> {
    match Get(cache, job.key)
    case None => []
    case Some(rows) => [Outcome(job, Some(rows))]
  }

  function SeedOutcomes(cache: DayCache, jobs: seq<Job>): seq<Outcome> {
    if jobs == [] then []
    else SeedOutcomes(cache, jobs[..|jobs| - 1]) + SeedOutcome(cache, jobs[|jobs| - 1])
  }

  /** Everything settled from the start of the call: cached days, then the events of the run. */
  function Outcomes(load: Load, events: seq<Event>): seq<Outcome>
    requires Legal(Init(load), events)
  {
    if events == [] then SeedOutcomes(load.cache, load.jobs)
    else
      var init := events[..|events| - 1];
      Outcomes(load, init) + Settles(After(Init(load), init), events[|events| - 1])
  }

  function JobOf(o: Outcome): Job { o.job }

  /** The rows settled for one vehicle, in the order they were settled. */
  function RowsOf(outcomes: seq<Outcome>, userId: nat): Rows {
    FlatMap((o: Outcome) => if o.job.userId == userId && o.rows.Some? then o.rows.value else [], outcomes)
  }

  // ------------------------------------------------------------------ the loader object

  /** One call of the loader as a mutable object; `View` is its state in the model above. */
  class DayLoad {
    const load: Load
    var chunks: seq<seq<Job>>
    var workers: seq<Worker>
    var rowsByUser: map<nat, Rows>
    var counted: set<string>
    var loaded: int
    var skipped: int
    var cache: DayCache
    var rejected: bool

    ghost function LedgerNow(): Ledger
      reads this
    {
      Ledger(rowsByUser, counted, loaded, skipped, cache)
    }

    ghost function View(): State
      reads this
    {
      State(chunks, workers, LedgerNow(), rejected)
    }

    constructor (load: Load)
      ensures this.load == load && View() == Init(load)
    {
      this.load := load;
      rowsByUser := map u | u in load.users :: [];
      counted, loaded, skipped, cache, rejected := {}, 0, 0, load.cache, false;
      chunks, workers := [], [];
      new;
      var pending: seq<Job> := [];
      for i := 0 to |load.jobs|
        invariant LedgerNow() == Seed(EmptyLedger(load), load.jobs[..i])
        invariant pending == Pending(load.cache, load.jobs[..i])
        invariant cache == load.cache && !rejected
      {
        FirstPassStep(EmptyLedger(load), load.cache, load.jobs, i);
        var job := load.jobs[i];
        var cached := Get(cache, job.key);
        if cached.Some? {
          PushCached(job, cached.value);
        } else {
          pending := pending + [job];
        }
      }
      assert load.jobs[..|load.jobs|] == load.jobs;
      if load.useBatch {
        chunks := ChunkArray(pending, USER_DAY_BATCH_SIZE);
        workers := seq(|chunks|, i => Waiting);
      } else {
        chunks, workers := [pending], [Direct(pending)];
      }
    }

    /** A cached day goes straight to its vehicle and counts as loaded. */
    method PushCached(job: Job, rows: Rows)
      modifies this`rowsByUser, this`counted, this`loaded
      ensures LedgerNow() == CountCached(old(LedgerNow()), job, rows)
    {
      PushRows(job.userId, rows);
      counted := counted + {job.key};
      loaded := loaded + 1;
    }

    method PushRows(userId: nat, rows: Rows)
      modifies this`rowsByUser
      ensures rowsByUser == Push(old(rowsByUser), userId, rows)
    {
      if userId in rowsByUser {
        rowsByUser := rowsByUser[userId := rowsByUser[userId] + rows];
      }
    }

    method RememberDayRows(key: string, rows: Rows)
      modifies this`cache
      ensures cache == Remember(old(cache), DAY_CACHE_MAX, key, rows)
    {
      cache := Write(cache, DAY_CACHE_MAX, key, rows);
    }

    method Store(job: Job, rows: Option<Rows>)
      modifies this`counted, this`loaded, this`skipped, this`cache, this`rowsByUser
      ensures LedgerNow() == StoreRows(old(LedgerNow()), job, rows)
    {
      if job.key !in counted {
        counted := counted + {job.key};
        loaded := loaded + 1;
        if rows.None? {
          skipped := skipped + 1;
        }
      }
      if rows.Some? {
        RememberDayRows(job.key, rows.value);
        PushRows(job.userId, rows.value);
      }
    }

    method Receive(notes: seq<Note>)
      modifies this`counted, this`loaded, this`skipped
      ensures LedgerNow() == NoteAll(old(LedgerNow()), notes)
    {
      for i := 0 to |notes|
        invariant LedgerNow() == NoteAll(old(LedgerNow()), notes[..i])
      {
        assert notes[..i + 1][..i] == notes[..i];
        if notes[i].key !in counted {
          counted := counted + {notes[i].key};
          loaded := loaded + 1;
          if notes[i].failed {
            skipped := skipped + 1;
          }
        }
      }
      assert notes[..|notes|] == notes;
    }

    method AbsorbBatch(chunk: seq<Job>, byKey: map<string, Rows>)
      modifies this`cache, this`rowsByUser
      ensures LedgerNow() == AbsorbRows(old(LedgerNow()), chunk, byKey)
    {
      for i := 0 to |chunk|
        invariant LedgerNow() == AbsorbRows(old(LedgerNow()), chunk[..i], byKey)
      {
        assert chunk[..i + 1][..i] == chunk[..i];
        if chunk[i].key in byKey {
          RememberDayRows(chunk[i].key, byKey[chunk[i].key]);
          PushRows(chunk[i].userId, byKey[chunk[i].key]);
        }
      }
      assert chunk[..|chunk|] == chunk;
    }

    /** The end of the call, once the pool has drained. */
    method Conclude() returns (verdict: Verdict)
      ensures verdict == Finish(load, View())
    {
      if load.jobs == [] {
        return Returned(rowsByUser, 0);
      }
      if loaded == skipped && skipped == |load.jobs| {
        return DayUnavailable;
      }
      verdict := Returned(rowsByUser, skipped);
    }

    /** One event of the pool. */
    method Perform(e: Event)
      requires Enabled(View(), e)
      modifies this
      ensures View() == Step(old(View()), e)
    {
      var w := workers[e.c];
      match e {
        case Start(c) => workers := workers[c := Reading([])];
        case Read(c, line) =>
          Receive(NotesOf(line.peek));
          workers := workers[c := Reading(w.stash + [line])];
        case AnswerJson(c, answers) => workers := workers[c := Parsing(Map(PlainLine, answers), 0)];
        case EndRead(c) => workers := workers[c := Parsing(w.stash, 0)];
        case Parse(c) =>
          Receive(LateNotes(w.stash[w.at]));
          workers := workers[c := Parsing(w.stash, w.at + 1)];
        case Absorb(c) =>
          AbsorbBatch(chunks[c], ByKey(w.stash));
          workers := workers[c := Direct(StillMissing(chunks[c], Received(w.stash)))];
        case Break(c) => workers := workers[c := Direct(chunks[c])];
        case Unavailable(c) =>
          workers := workers[c := Gone];
          rejected := true;
        case Fetched(c, i, rows) =>
          Store(w.todo[i], rows);
          workers := workers[c := Direct(RemoveAt(w.todo, i))];
      }
    }
  }

  /** Drive a call through a schedule: the object ends where the model's run ends. */
  method RunSchedule(load: Load, events: seq<Event>) returns (call: DayLoad)
    requires Legal(Init(load), events)
    ensures fresh(call) && call.View() == After(Init(load), events)
  {
    call := new DayLoad(load);
    for i := 0 to |events|
      invariant Legal(Init(load), events[..i])
      invariant call.View() == After(Init(load), events[..i])
      invariant fresh(call)
    {
      LegalPrefix(Init(load), events, i + 1);
      assert events[..i + 1][..i] == events[..i];
      call.Perform(events[i]);
    }
    assert events[..|events|] == events;
  }

  lemma {:induction false} LegalPrefix(s: State, events: seq<Event>, n: nat)
    requires Legal(s, events) && n <= |events|
    ensures Legal(s, events[..n])
  {
    if n < |events| {
      LegalPrefix(s, events[..|events| - 1], n);
      assert events[..|events| - 1][..n] == events[..n];
    } else {
      assert events[..n] == events;
    }
  }
}
