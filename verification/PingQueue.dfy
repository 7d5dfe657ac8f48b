/**
 The driver ping queue: the page enqueues fixes, and the service worker (or the page itself) sends
 them in batches and deletes what the server has dealt with. Every IndexedDB transaction and every
 response is one atomic step; any number of flushers may be at work at once.
 Store ids come from a key generator: they start at 1 and never repeat (section 2.11 of the
 Indexed Database API 3.0).
 */
module PingQueue {
  import opened Seqs

  const MAX_BATCH := 50
  const MAX_QUEUE_ROWS := 2000

  type Ping = string
  datatype Row = Row(id: nat, ping: Ping)

  /** `Worker` is `flushQueue` of the service worker, `Page` is `flushDriverLocationQueue`. */
  datatype Kind = Worker | Page

  datatype Phase =
    | Idle
    | Posting(batch: seq<Row>, short: bool)
    | Answered(batch: seq<Row>, status: int, short: bool)
    | Done(result: bool)
    | Dead

  datatype Flusher = Flusher(kind: Kind, phase: Phase)

  /** What the server has answered to which batch. */
  datatype Answer = Answer(kind: Kind, status: int, batch: seq<Row>)

  datatype System = System(
    store: seq<Row>, enqueued: seq<Ping>, flushers: seq<Flusher>, trims: seq<seq<Row>>,
    log: seq<Answer>, trimmed: set<nat>)

  datatype Event =
    | Enqueue(ping: Ping)
    | Spawn(kind: Kind)
    | Snapshot(f: nat)
    | Reply(f: nat, status: int)
    | Lost(f: nat, reached: Option<int>)
    | Drop(f: nat)
    | Kill(f: nat)
    | TrimRead
    | TrimDrop(t: nat)

  predicate Ok(status: int) {
    200 <= status <= 299
  }

  /** A status after which the batch is deleted: the server stored it or will never take it. */
  predicate Final(kind: Kind, status: int) {
    status != 429 && status < 500 && (kind.Page? ==> status != 401 && status != 403)
  }

  function FirstBatch(rows: seq<Row>): seq<Row> {
    if |rows| <= MAX_BATCH then rows else rows[..MAX_BATCH]
  }

  function Ids(rows: seq<Row>): set<nat> {
    set r | r in rows :: r.id
  }

  function Delete(store: seq<Row>, ids: set<nat>): (r: seq<Row>)
    ensures forall x :: x in r <==> x in store && x.id !in ids
  {
    if store == [] then []
    else if store[0].id in ids then Delete(store[1..], ids)
    else [store[0]] + Delete(store[1..], ids)
  }

  // ------------------------------------------------------------------ steps

  function Init(): System {
    System([], [], [], [], [], {})
  }

  predicate Enabled(s: System, e: Event) {
    match e
    case Snapshot(f) => f < |s.flushers| && s.flushers[f].phase.Idle?
    case Reply(f, _) => f < |s.flushers| && s.flushers[f].phase.Posting?
    case Lost(f, _) => f < |s.flushers| && s.flushers[f].phase.Posting?
    case Drop(f) => f < |s.flushers| && s.flushers[f].phase.Answered?
    case Kill(f) => f < |s.flushers|
    case TrimDrop(t) => t < |s.trims|
    case _ => true
  }

  function SetPhase(s: System, f: nat, phase: Phase): System
    requires f < |s.flushers|
  {
    s.(flushers := s.flushers[f := Flusher(s.flushers[f].kind, phase)])
  }

  /** Where a flusher goes after deleting an answered batch. */
  function AfterDrop(kind: Kind, status: int, short: bool): Phase {
    if kind.Worker? && !Ok(status) then Done(false)
    else if short then Done(true)
    else Idle
  }

  function Step(s: System, e: Event): System
    requires Enabled(s, e)
  {
    match e
    case Enqueue(ping) => s.(store := s.store + [Row(|s.enqueued| + 1, ping)], enqueued := s.enqueued + [ping])
    case Spawn(kind) => s.(flushers := s.flushers + [Flusher(kind, Idle)])
    case Snapshot(f) =>
      SetPhase(s, f, if s.store == [] then Done(true) else Posting(FirstBatch(s.store), |s.store| <= MAX_BATCH))
    case Reply(f, status) =>
      var Flusher(kind, Posting(batch, short)) := s.flushers[f];
      SetPhase(s.(log := s.log + [Answer(kind, status, batch)]), f,
               if Final(kind, status) then Answered(batch, status, short) else Done(false))
    case Lost(f, reached) =>
      var Flusher(kind, Posting(batch, _)) := s.flushers[f];
      SetPhase(if reached.Some? then s.(log := s.log + [Answer(kind, reached.value, batch)]) else s, f, Done(false))
    case Drop(f) =>
      var Flusher(kind, Answered(batch, status, short)) := s.flushers[f];
      SetPhase(s.(store := Delete(s.store, Ids(batch))), f, AfterDrop(kind, status, short))
    // A flusher killed while its POST is in transit stays `Posting` until the POST arrives or dies: `Lost`.
    case Kill(f) => SetPhase(s, f, Dead)
    case TrimRead =>
      s.(trims := s.trims + [if |s.store| <= MAX_QUEUE_ROWS then [] else s.store[..|s.store| - MAX_QUEUE_ROWS]])
    case TrimDrop(t) =>
      s.(store := Delete(s.store, Ids(s.trims[t])), trimmed := s.trimmed + Ids(s.trims[t]), trims := s.trims[t := []])
  }

  predicate Legal(s: System, events: seq<Event>)
    decreases |events|, 0
  {
    events == [] || (Legal(s, events[..|events| - 1])
      && Enabled(After(s, events[..|events| - 1]), events[|events| - 1]))
  }

  function After(s: System, events: seq<Event>): System
    requires Legal(s, events)
    decreases |events|, 1
  {
    if events == [] then s else Step(After(s, events[..|events| - 1]), events[|events| - 1])
  }

  // ------------------------------------------------------------------ safety: no ping is lost

  /**
   The server took the row or will never take it: a batch with this row was answered with neither 429 nor
   a status from 500 up, and, if the page sent it, with neither 401 nor 403.
   */
  ghost predicate DealtWith(log: seq<Answer>, row: Row) {
    exists a :: a in log && row in a.batch && a.status != 429 && a.status < 500
      && (a.kind.Page? ==> a.status != 401 && a.status != 403)
  }

  /** The row really is the ping enqueued under its id. */
  predicate Genuine(enqueued: seq<Ping>, row: Row) {
    1 <= row.id <= |enqueued| && enqueued[row.id - 1] == row.ping
  }

  function BatchOf(phase: Phase): seq<Row> {
    match phase
    case Posting(batch, _) => batch
    case Answered(batch, _, _) => batch
    case _ => []
  }

  ghost predicate FlusherOk(s: System, fl: Flusher) {
    && (forall r :: r in BatchOf(fl.phase) ==> Genuine(s.enqueued, r))
    && (fl.phase.Answered? ==> Final(fl.kind, fl.phase.status) && Answer(fl.kind, fl.phase.status, fl.phase.batch) in s.log)
  }

  ghost predicate Accounted(s: System, row: Row) {
    row in s.store || DealtWith(s.log, row) || row.id in s.trimmed
  }

  ghost predicate Safe(s: System) {
    && (forall r :: r in s.store ==> Genuine(s.enqueued, r))
    && (forall i :: 0 <= i < |s.enqueued| ==> Accounted(s, Row(i + 1, s.enqueued[i])))
    && (forall f :: 0 <= f < |s.flushers| ==> FlusherOk(s, s.flushers[f]))
    && (forall t, r :: 0 <= t < |s.trims| && r in s.trims[t] ==> Genuine(s.enqueued, r))
  }

  /** Genuine rows are told apart by their ids. */
  lemma DeleteKeepsOthers(store: seq<Row>, batch: seq<Row>, enqueued: seq<Ping>, row: Row)
    requires row in store && Genuine(enqueued, row) && row !in batch
    requires forall r :: r in batch ==> Genuine(enqueued, r)
    ensures row in Delete(store, Ids(batch))
  {
  }

  lemma FlusherStaysOk(s: System, s': System, fl: Flusher)
    requires FlusherOk(s, fl) && s.enqueued <= s'.enqueued && s.log <= s'.log
    ensures FlusherOk(s', fl)
  {
  }

  lemma GrowthKeepsAccounted(s: System, s': System, row: Row)
    requires Accounted(s, row) && s.log <= s'.log && s.trimmed <= s'.trimmed && (row in s.store ==> Accounted(s', row))
    ensures Accounted(s', row)
  {
  }

  lemma StepRowAccounted(s: System, e: Event, row: Row)
    requires Enabled(s, e) && Safe(s) && Genuine(s.enqueued, row) && Accounted(s, row)
    ensures Accounted(Step(s, e), row)
  {
    var s' := Step(s, e);
    if row in s.store && row !in s'.store {
      if e.Drop? {
        var fl := s.flushers[e.f];
        assert FlusherOk(s, fl);
        if row !in fl.phase.batch {
          DeleteKeepsOthers(s.store, fl.phase.batch, s.enqueued, row);
        }
        assert Answer(fl.kind, fl.phase.status, fl.phase.batch) in s'.log;
      } else {
        assert e.TrimDrop?;
      }
    }
    GrowthKeepsAccounted(s, s', row);
  }

  lemma StepFlushersOk(s: System, e: Event, f: nat)
    requires Enabled(s, e) && Safe(s) && f < |Step(s, e).flushers|
    ensures FlusherOk(Step(s, e), Step(s, e).flushers[f])
  {
    var s' := Step(s, e);
    if f < |s.flushers| {
      assert FlusherOk(s, s.flushers[f]);
      if s'.flushers[f] == s.flushers[f] {
        FlusherStaysOk(s, s', s.flushers[f]);
      }
    }
  }

  lemma StepSafe(s: System, e: Event)
    requires Enabled(s, e) && Safe(s)
    ensures Safe(Step(s, e))
  {
    var s' := Step(s, e);
    assert s.enqueued <= s'.enqueued;
    forall f | 0 <= f < |s'.flushers| ensures FlusherOk(s', s'.flushers[f]) {
      StepFlushersOk(s, e, f);
    }
    forall i | 0 <= i < |s'.enqueued| ensures Accounted(s', Row(i + 1, s'.enqueued[i])) {
      if i < |s.enqueued| {
        StepRowAccounted(s, e, Row(i + 1, s.enqueued[i]));
      }
    }
    forall t, r | 0 <= t < |s'.trims| && r in s'.trims[t] ensures Genuine(s'.enqueued, r) {
      if t < |s.trims| && r in s.trims[t] {
        assert Genuine(s.enqueued, r);
      }
    }
  }

  /**
   For any number of flushers interleaved with enqueues, kills and lost responses, every ping ever
   enqueued is still in the store, or was dealt with by the server, or was trimmed.
   */
  lemma {:induction false} NoPingLost(events: seq<Event>)
    requires Legal(Init(), events)
    ensures Safe(After(Init(), events))
  {
    if events != [] {
      NoPingLost(events[..|events| - 1]);
      StepSafe(After(Init(), events[..|events| - 1]), events[|events| - 1]);
    }
  }

  // ------------------------------------------------------------------ which answers delete

  /** A flusher of this kind got an answer for a batch with this row that settles it. */
  ghost predicate DealtWithBy(log: seq<Answer>, kind: Kind, row: Row) {
    exists a :: a in log && row in a.batch && a.kind == kind && a.status != 429 && a.status < 500
      && (kind.Page? ==> a.status != 401 && a.status != 403)
  }

  /** A row leaves the store only by a trim that read it, or by its own flusher after an answer that settles it. */
  lemma LeavesOnlySettled(events: seq<Event>, e: Event, row: Row)
    requires Legal(Init(), events) && Enabled(After(Init(), events), e)
    requires row in After(Init(), events).store && row !in Step(After(Init(), events), e).store
    ensures var s := After(Init(), events);
      || (e.TrimDrop? && row in s.trims[e.t])
      || (e.Drop? && DealtWithBy(s.log, s.flushers[e.f].kind, row))
  {
    NoPingLost(events);
    var s := After(Init(), events);
    assert Genuine(s.enqueued, row);
    if e.Drop? {
      var fl := s.flushers[e.f];
      assert FlusherOk(s, fl);
      if row !in fl.phase.batch {
        DeleteKeepsOthers(s.store, fl.phase.batch, s.enqueued, row);
      }
      assert Answer(fl.kind, fl.phase.status, fl.phase.batch) in s.log;
    } else {
      assert e.TrimDrop?;
      if row !in s.trims[e.t] {
        DeleteKeepsOthers(s.store, s.trims[e.t], s.enqueued, row);
      }
    }
  }

  /** An answer that keeps the batch ends the flush and touches nothing; any other has the whole batch deleted. */
  lemma AnswerDecides(s: System, f: nat, status: int)
    requires Enabled(s, Reply(f, status))
    ensures var fl, t := s.flushers[f], Step(s, Reply(f, status));
      t.store == s.store && t.log == s.log + [Answer(fl.kind, status, fl.phase.batch)]
      && if status == 429 || status >= 500 || (fl.kind.Page? && (status == 401 || status == 403))
         then t.flushers[f].phase == Done(false)
         else Enabled(t, Drop(f)) && (forall row :: row in fl.phase.batch ==> row !in Step(t, Drop(f)).store)
  {
  }

  /** After a deletion a worker goes on only if the server accepted; a flush that saw all there was is done. */
  lemma WhereNext(s: System, f: nat, status: int)
    requires Enabled(s, Reply(f, status)) && Enabled(Step(s, Reply(f, status)), Drop(f))
    ensures var fl := s.flushers[f];
      Step(Step(s, Reply(f, status)), Drop(f)).flushers[f].phase
      == if fl.kind.Worker? && !(200 <= status <= 299) then Done(false) else if fl.phase.short then Done(true) else Idle
  {
  }

  /** A snapshot posts the first 50 rows, or ends the flush when there is none. */
  lemma SnapshotTakesFront(s: System, f: nat)
    requires Enabled(s, Snapshot(f))
    ensures var t := Step(s, Snapshot(f));
      && t.store == s.store && t.log == s.log
      && (s.store == [] ==> t.flushers[f].phase == Done(true))
      && (s.store != [] ==>
        && t.flushers[f].phase.Posting? && t.flushers[f].phase.batch <= s.store
        && |t.flushers[f].phase.batch| == (if |s.store| <= 50 then |s.store| else 50)
        && (t.flushers[f].phase.short <==> |s.store| <= 50))
  {
  }

  /** A trim that nothing disturbs leaves the newest 2000 rows. */
  lemma TrimKeepsNewest(events: seq<Event>)
    requires Legal(Init(), events)
    ensures var s := After(Init(), events);
      var t := Step(s, TrimRead);
      && Enabled(t, TrimDrop(|s.trims|))
      && Step(t, TrimDrop(|s.trims|)).store == if |s.store| <= 2000 then s.store else s.store[|s.store| - 2000..]
  {
    AlwaysOrdered(events);
    var s := After(Init(), events);
    if |s.store| <= 2000 {
      DeleteNone(s.store, Ids([]));
    } else {
      var n := |s.store| - 2000;
      assert s.store == s.store[..n] + s.store[n..];
      DeletePrefix(s.store[..n], s.store[n..]);
    }
  }

  // ------------------------------------------------------------------ the store is in the order of its ids

  ghost predicate StoreOrdered(s: System) {
    Ascending(s.store) && forall r :: r in s.store ==> r.id <= |s.enqueued|
  }

  lemma StepOrdered(s: System, e: Event)
    requires Enabled(s, e) && StoreOrdered(s)
    ensures StoreOrdered(Step(s, e))
  {
    match e {
      case Drop(f) => DeleteAscending(s.store, Ids(s.flushers[f].phase.batch));
      case TrimDrop(t) => DeleteAscending(s.store, Ids(s.trims[t]));
      case _ =>
    }
  }

  lemma {:induction false} AlwaysOrdered(events: seq<Event>)
    requires Legal(Init(), events)
    ensures StoreOrdered(After(Init(), events))
  {
    if events != [] {
      AlwaysOrdered(events[..|events| - 1]);
      StepOrdered(After(Init(), events[..|events| - 1]), events[|events| - 1]);
    }
  }

  // ------------------------------------------------------------------ what a trim may drop

  /** The row is followed by at least as many younger rows as the queue may hold. */
  ghost predicate Outgrown(store: seq<Row>, id: nat) {
    exists j :: 0 <= j < |store| && store[j].id == id && |store| - 1 - j >= 2000
      && forall k :: j < k < |store| ==> store[k].id > id
  }

  /** Some trim of the run read the store while the row was outgrown. */
  ghost predicate WasOutgrown(events: seq<Event>, id: nat)
    requires Legal(Init(), events)
  {
    events != [] &&
    (WasOutgrown(events[..|events| - 1], id)
     || (events[|events| - 1].TrimRead? && Outgrown(After(Init(), events[..|events| - 1]).store, id)))
  }

  lemma ExcessOutgrown(store: seq<Row>, r: Row)
    requires Ascending(store) && |store| > MAX_QUEUE_ROWS && r in store[..|store| - MAX_QUEUE_ROWS]
    ensures Outgrown(store, r.id)
  {
    var j :| 0 <= j < |store| - MAX_QUEUE_ROWS && store[j] == r;
  }

  /** Whatever a trim drops or is about to drop was outgrown when the trim read the store. */
  lemma {:induction false} TrimmedWasOutgrown(events: seq<Event>)
    requires Legal(Init(), events)
    ensures forall id :: id in After(Init(), events).trimmed ==> WasOutgrown(events, id)
    ensures forall t, r :: 0 <= t < |After(Init(), events).trims| && r in After(Init(), events).trims[t] ==>
      WasOutgrown(events, r.id)
  {
    if events != [] {
      var init, e := events[..|events| - 1], events[|events| - 1];
      TrimmedWasOutgrown(init);
      AlwaysOrdered(init);
      var s, s' := After(Init(), init), After(Init(), events);
      forall t, r | 0 <= t < |s'.trims| && r in s'.trims[t] ensures WasOutgrown(events, r.id) {
        if t < |s.trims| && r in s.trims[t] {
          assert WasOutgrown(init, r.id);
        } else {
          ExcessOutgrown(s.store, r);
        }
      }
      forall id | id in s'.trimmed ensures WasOutgrown(events, id) {
        if id in s.trimmed {
          assert WasOutgrown(init, id);
        } else {
          var r :| r in s.trims[e.t] && r.id == id;
          assert WasOutgrown(init, r.id);
        }
      }
    }
  }

  // ------------------------------------------------------------------ pings enqueued during a POST

  ghost predicate BatchBefore(s: System, f: nat, bound: nat) {
    f < |s.flushers| && forall r :: r in BatchOf(s.flushers[f].phase) ==> r.id <= bound
  }

  lemma {:induction false} BatchStaysBefore(s: System, f: nat, bound: nat, events: seq<Event>)
    requires BatchBefore(s, f, bound) && Legal(s, events) && Snapshot(f) !in events
    ensures BatchBefore(After(s, events), f, bound)
  {
    if events != [] {
      var init := events[..|events| - 1];
      BatchStaysBefore(s, f, bound, init);
    }
  }

  /**
   A flusher that takes its snapshot now deletes, however long its POST takes and whatever else
   happens meanwhile, only pings enqueued before the snapshot.
   */
  lemma NewcomersSurvive(before: seq<Event>, f: nat, during: seq<Event>, row: Row)
    requires Legal(Init(), before) && Enabled(After(Init(), before), Snapshot(f))
    requires var s := Step(After(Init(), before), Snapshot(f));
      && Legal(s, during) && Snapshot(f) !in during && Enabled(After(s, during), Drop(f))
      && row in After(s, during).store && row.id > |s.enqueued|
    ensures row in Step(After(Step(After(Init(), before), Snapshot(f)), during), Drop(f)).store
  {
    NoPingLost(before);
    var s0 := After(Init(), before);
    var s := Step(s0, Snapshot(f));
    assert BatchBefore(s, f, |s.enqueued|) by {
      forall r | r in BatchOf(s.flushers[f].phase) ensures r.id <= |s.enqueued| {
        assert r in s0.store;
      }
    }
    BatchStaysBefore(s, f, |s.enqueued|, during);
  }

  // ------------------------------------------------------------------ one flusher, no lost response

  function AcceptedOf(a: Answer): seq<Row> {
    if 200 <= a.status <= 299 then a.batch else []
  }

  /** The pings the server accepted, in the order it accepted them. */
  function Accepted(log: seq<Answer>): seq<Row> {
    FlatMap(AcceptedOf, log)
  }

  ghost predicate Ascending(rows: seq<Row>) {
    forall i, j :: 0 <= i < j < |rows| ==> rows[i].id < rows[j].id
  }

  /** One flusher at a time; no response is lost and no flusher is killed. */
  ghost predicate Orderly(s: System, e: Event) {
    match e
    case Spawn(_) => forall f :: 0 <= f < |s.flushers| ==> s.flushers[f].phase.Done?
    case Lost(_, _) => false
    case Kill(_) => false
    case _ => true
  }

  ghost predicate OrderlyRun(events: seq<Event>) {
    Legal(Init(), events) &&
    (events == [] || (OrderlyRun(events[..|events| - 1])
      && Orderly(After(Init(), events[..|events| - 1]), events[|events| - 1])))
  }

  ghost predicate AllBelow(rows: seq<Row>, others: seq<Row>) {
    forall a, b :: a in rows && b in others ==> a.id < b.id
  }

  /** Rows the store still holds although their batch has been answered. */
  function InFlight(s: System): seq<Row> {
    if s.flushers == [] then [] else BatchOf(s.flushers[|s.flushers| - 1].phase)
  }

  ghost predicate AnsweredNow(s: System) {
    s.flushers != [] && s.flushers[|s.flushers| - 1].phase.Answered?
  }

  /** The store continues where the accepted pings end; `flight` is the batch of the flusher at
      work, already `answered` or not, and `n` the last id given out. */
  ghost predicate QueueInOrder(store: seq<Row>, accepted: seq<Row>, flight: seq<Row>, answered: bool, n: nat) {
    && Ascending(store) && (forall r :: r in store ==> r.id <= n)
    && Ascending(accepted) && Ascending(flight)
    && (forall r :: r in accepted ==> r.id <= n) && (forall r :: r in flight ==> r.id <= n)
    && (forall a, b :: a in flight && b in store && b.id !in Ids(flight) ==> a.id < b.id)
    && (if answered then forall a, b :: a in accepted && b in store && b.id !in Ids(flight) ==> a.id < b.id
        else AllBelow(accepted, store) && AllBelow(accepted, flight))
  }

  /** Only the last flusher is at work. */
  ghost predicate OneAtWork(flushers: seq<Flusher>) {
    && (forall f :: 0 <= f < |flushers| - 1 ==> flushers[f].phase.Done?)
    && (flushers != [] ==> !flushers[|flushers| - 1].phase.Dead?)
  }

  ghost predicate InOrder(s: System) {
    OneAtWork(s.flushers) && QueueInOrder(s.store, Accepted(s.log), InFlight(s), AnsweredNow(s), |s.enqueued|)
  }

  lemma {:induction false} DeleteAscending(store: seq<Row>, ids: set<nat>)
    requires Ascending(store)
    ensures Ascending(Delete(store, ids))
  {
    if store != [] {
      assert Ascending(store[1..]);
      DeleteAscending(store[1..], ids);
      forall r | r in Delete(store[1..], ids) ensures store[0].id < r.id {
        var i :| 0 <= i < |store[1..]| && store[1..][i] == r;
        assert r == store[i + 1];
      }
    }
  }

  lemma AcceptedSnoc(log: seq<Answer>, a: Answer)
    ensures Accepted(log + [a]) == Accepted(log) + AcceptedOf(a)
  {
    FlatMapConcat(AcceptedOf, log, [a]);
    assert FlatMap(AcceptedOf, [a]) == AcceptedOf(a) + FlatMap(AcceptedOf, []);
  }

  lemma AscendingConcat(a: seq<Row>, b: seq<Row>)
    requires Ascending(a) && Ascending(b) && AllBelow(a, b)
    ensures Ascending(a + b)
  {
  }

  /** A flusher that moves is the last one, and its new phase decides what is in flight. */
  lemma LastMoves(s: System, f: nat, phase: Phase)
    requires OneAtWork(s.flushers) && f < |s.flushers| && !s.flushers[f].phase.Done? && !phase.Dead?
    ensures f == |s.flushers| - 1
    ensures OneAtWork(SetPhase(s, f, phase).flushers)
    ensures InFlight(SetPhase(s, f, phase)) == BatchOf(phase)
    ensures AnsweredNow(SetPhase(s, f, phase)) == phase.Answered?
  {
  }

  lemma InOrderFrom(s: System, store: seq<Row>, accepted: seq<Row>, flight: seq<Row>, answered: bool, n: nat)
    requires OneAtWork(s.flushers) && QueueInOrder(store, accepted, flight, answered, n)
    requires s.store == store && Accepted(s.log) == accepted && InFlight(s) == flight
    requires AnsweredNow(s) == answered && |s.enqueued| == n
    ensures InOrder(s)
  {
  }

  lemma FrontIds(store: seq<Row>, n: nat, j: nat)
    requires n <= |store| && j < |store|
    ensures j < n ==> store[j].id in Ids(store[..n])
  {
    assert j < n ==> store[..n][j] in store[..n];
  }

  /** A first batch precedes everything else in the store. */
  lemma FirstBatchFirst(store: seq<Row>, a: Row, b: Row)
    requires Ascending(store) && a in FirstBatch(store) && b in store && b.id !in Ids(FirstBatch(store))
    ensures a.id < b.id
  {
    var batch := FirstBatch(store);
    var i :| 0 <= i < |batch| && batch[i] == a;
    var j :| 0 <= j < |store| && store[j] == b;
    assert store[i] == a;
    FrontIds(store, |batch|, j);
  }

  lemma SnapshotQueue(store: seq<Row>, accepted: seq<Row>, n: nat)
    requires QueueInOrder(store, accepted, [], false, n)
    ensures QueueInOrder(store, accepted, FirstBatch(store), false, n)
  {
    var batch := FirstBatch(store);
    assert forall r :: r in batch ==> r in store;
    forall a, b | a in batch && b in store && b.id !in Ids(batch) ensures a.id < b.id {
      FirstBatchFirst(store, a, b);
    }
  }

  lemma SnapshotInOrder(s: System, e: Event)
    requires InOrder(s) && Enabled(s, e) && e.Snapshot?
    ensures InOrder(Step(s, e))
  {
    LastMoves(s, e.f, Step(s, e).flushers[e.f].phase);
    SnapshotQueue(s.store, Accepted(s.log), |s.enqueued|);
    InOrderFrom(Step(s, e), s.store, Accepted(s.log), FirstBatch(s.store), false, |s.enqueued|);
  }

  lemma ReplyQueue(store: seq<Row>, accepted: seq<Row>, flight: seq<Row>, ok: bool, final: bool, n: nat)
    requires QueueInOrder(store, accepted, flight, false, n) && (ok ==> final)
    ensures QueueInOrder(store, accepted + (if ok then flight else []), if final then flight else [], final, n)
  {
    AscendingConcat(accepted, flight);
    assert accepted + [] == accepted;
  }

  /** A posting flusher is the last one, and its batch is what is in flight. */
  lemma PostingIsLast(s: System, f: nat)
    requires OneAtWork(s.flushers) && f < |s.flushers| && s.flushers[f].phase.Posting?
    ensures f == |s.flushers| - 1 && InFlight(s) == s.flushers[f].phase.batch && !AnsweredNow(s)
  {
  }

  /** The system after a reply. */
  lemma ReplyState(s: System, e: Event)
    requires OneAtWork(s.flushers) && Enabled(s, e) && e.Reply?
    ensures var Flusher(kind, Posting(batch, _)) := s.flushers[e.f];
      var final, t := Final(kind, e.status), Step(s, e);
      && OneAtWork(t.flushers) && t.store == s.store && t.enqueued == s.enqueued
      && InFlight(t) == (if final then batch else []) && AnsweredNow(t) == final
      && Accepted(t.log) == Accepted(s.log) + (if 200 <= e.status <= 299 then batch else [])
  {
    var Flusher(kind, Posting(batch, short)) := s.flushers[e.f];
    var answer := Answer(kind, e.status, batch);
    LastMoves(s.(log := s.log + [answer]), e.f, Step(s, e).flushers[e.f].phase);
    AcceptedSnoc(s.log, answer);
  }

  lemma ReplyInOrder(s: System, e: Event)
    requires InOrder(s) && Enabled(s, e) && e.Reply?
    ensures InOrder(Step(s, e))
  {
    var Flusher(kind, Posting(batch, short)) := s.flushers[e.f];
    PostingIsLast(s, e.f);
    ReplyState(s, e);
    ReplyQueue(s.store, Accepted(s.log), batch, 200 <= e.status <= 299, Final(kind, e.status), |s.enqueued|);
  }

  /** Deleting rows, whether or not they are the batch in flight. */
  lemma DeleteQueue(store: seq<Row>, accepted: seq<Row>, flight: seq<Row>, answered: bool, n: nat, ids: set<nat>)
    requires QueueInOrder(store, accepted, flight, answered, n)
    ensures QueueInOrder(Delete(store, ids), accepted, flight, answered, n)
    ensures ids == Ids(flight) ==> QueueInOrder(Delete(store, ids), accepted, [], false, n)
  {
    DeleteAscending(store, ids);
  }

  lemma DropInOrder(s: System, e: Event)
    requires InOrder(s) && Enabled(s, e) && e.Drop?
    ensures InOrder(Step(s, e))
  {
    var batch := s.flushers[e.f].phase.batch;
    LastMoves(s, e.f, s.flushers[e.f].phase);
    LastMoves(s, e.f, Step(s, e).flushers[e.f].phase);
    DeleteQueue(s.store, Accepted(s.log), batch, true, |s.enqueued|, Ids(batch));
    InOrderFrom(Step(s, e), Delete(s.store, Ids(batch)), Accepted(s.log), [], false, |s.enqueued|);
  }

  lemma EnqueueQueue(store: seq<Row>, accepted: seq<Row>, flight: seq<Row>, answered: bool, n: nat, ping: Ping)
    requires QueueInOrder(store, accepted, flight, answered, n)
    ensures QueueInOrder(store + [Row(n + 1, ping)], accepted, flight, answered, n + 1)
  {
  }

  lemma EnqueueInOrder(s: System, e: Event)
    requires InOrder(s) && e.Enqueue?
    ensures InOrder(Step(s, e))
  {
    var n := |s.enqueued|;
    EnqueueQueue(s.store, Accepted(s.log), InFlight(s), AnsweredNow(s), n, e.ping);
    InOrderFrom(Step(s, e), s.store + [Row(n + 1, e.ping)], Accepted(s.log), InFlight(s), AnsweredNow(s), n + 1);
  }

  lemma SpawnInOrder(s: System, e: Event)
    requires InOrder(s) && e.Spawn? && Orderly(s, e)
    ensures InOrder(Step(s, e))
  {
    assert InFlight(s) == [] && InFlight(Step(s, e)) == [];
  }

  lemma TrimInOrder(s: System, e: Event)
    requires InOrder(s) && Enabled(s, e) && (e.TrimRead? || e.TrimDrop?)
    ensures InOrder(Step(s, e))
  {
    if e.TrimDrop? {
      var ids := Ids(s.trims[e.t]);
      DeleteQueue(s.store, Accepted(s.log), InFlight(s), AnsweredNow(s), |s.enqueued|, ids);
      InOrderFrom(Step(s, e), Delete(s.store, ids), Accepted(s.log), InFlight(s), AnsweredNow(s), |s.enqueued|);
    } else {
      InOrderFrom(Step(s, e), s.store, Accepted(s.log), InFlight(s), AnsweredNow(s), |s.enqueued|);
    }
  }

  lemma StepInOrder(s: System, e: Event)
    requires InOrder(s) && Enabled(s, e) && Orderly(s, e)
    ensures InOrder(Step(s, e))
  {
    match e {
      case Enqueue(_) => EnqueueInOrder(s, e);
      case Spawn(_) => SpawnInOrder(s, e);
      case Snapshot(_) => SnapshotInOrder(s, e);
      case Reply(_, _) => ReplyInOrder(s, e);
      case Drop(_) => DropInOrder(s, e);
      case _ => TrimInOrder(s, e);
    }
  }

  /**
   With one flusher at a time and no lost response, the server accepts pings in enqueue order and
   none of them twice.
   */
  lemma {:induction false} AcceptedInOrderOnce(events: seq<Event>)
    requires OrderlyRun(events)
    ensures InOrder(After(Init(), events))
    ensures Ascending(Accepted(After(Init(), events).log))
  {
    if events != [] {
      AcceptedInOrderOnce(events[..|events| - 1]);
      StepInOrder(After(Init(), events[..|events| - 1]), events[|events| - 1]);
    }
  }

  lemma OneMore(events: seq<Event>, e: Event)
    requires Legal(Init(), events) && Enabled(After(Init(), events), e)
    ensures Legal(Init(), events + [e]) && After(Init(), events + [e]) == Step(After(Init(), events), e)
  {
    assert (events + [e])[..|events|] == events;
  }

  /** Two flushers at once can have the same ping accepted twice. */
  lemma TwoFlushersSendTwice(ping: Ping) returns (events: seq<Event>)
    ensures Legal(Init(), events)
    ensures Accepted(After(Init(), events).log) == [Row(1, ping), Row(1, ping)]
  {
    events := [];
    OneMore(events, Enqueue(ping)); events := events + [Enqueue(ping)];
    OneMore(events, Spawn(Worker)); events := events + [Spawn(Worker)];
    OneMore(events, Spawn(Worker)); events := events + [Spawn(Worker)];
    assert After(Init(), events).store == [Row(1, ping)];
    OneMore(events, Snapshot(0)); events := events + [Snapshot(0)];
    assert After(Init(), events).flushers[0] == Flusher(Worker, Posting([Row(1, ping)], true));
    OneMore(events, Snapshot(1)); events := events + [Snapshot(1)];
    assert After(Init(), events).flushers[1] == Flusher(Worker, Posting([Row(1, ping)], true));
    OneMore(events, Reply(0, 200)); events := events + [Reply(0, 200)];
    OneMore(events, Reply(1, 200)); events := events + [Reply(1, 200)];
    var a := Answer(Worker, 200, [Row(1, ping)]);
    assert After(Init(), events).log == [a] + [a];
    AcceptedSnoc([], a);
    AcceptedSnoc([a], a);
  }

  /** So can a single flusher whose first response is lost. */
  lemma LostResponseSendsTwice(ping: Ping) returns (events: seq<Event>)
    ensures Legal(Init(), events)
    ensures Accepted(After(Init(), events).log) == [Row(1, ping), Row(1, ping)]
  {
    events := [];
    OneMore(events, Enqueue(ping)); events := events + [Enqueue(ping)];
    OneMore(events, Spawn(Worker)); events := events + [Spawn(Worker)];
    assert After(Init(), events).store == [Row(1, ping)];
    OneMore(events, Snapshot(0)); events := events + [Snapshot(0)];
    assert After(Init(), events).flushers[0] == Flusher(Worker, Posting([Row(1, ping)], true));
    OneMore(events, Lost(0, Some(200))); events := events + [Lost(0, Some(200))];
    OneMore(events, Spawn(Worker)); events := events + [Spawn(Worker)];
    OneMore(events, Snapshot(1)); events := events + [Snapshot(1)];
    assert After(Init(), events).flushers[1] == Flusher(Worker, Posting([Row(1, ping)], true));
    OneMore(events, Reply(1, 200)); events := events + [Reply(1, 200)];
    var a := Answer(Worker, 200, [Row(1, ping)]);
    assert After(Init(), events).log == [a] + [a];
    AcceptedSnoc([], a);
    AcceptedSnoc([a], a);
  }

  // ------------------------------------------------------------------ the flush loop itself

  function RowsFor(first: nat, pings: seq<Ping>): (r: seq<Row>)
    ensures |r| == |pings| && forall i :: 0 <= i < |r| ==> r[i] == Row(first + i, pings[i])
  {
    seq(|pings|, i requires 0 <= i < |pings| => Row(first + i, pings[i]))
  }

  /** The pings the page enqueues while POST number `i` is under way. */
  function During(arrivals: seq<seq<Ping>>, i: nat): seq<Ping> {
    if i < |arrivals| then arrivals[i] else []
  }

  function AllDuring(arrivals: seq<seq<Ping>>, n: nat): seq<Ping> {
    if n == 0 then [] else AllDuring(arrivals, n - 1) + During(arrivals, n - 1)
  }

  /** What one answer of the service worker's flush removes: its batch, unless the status is 429 or from 500 up. */
  function DroppedOf(a: Answer): seq<Row> {
    if a.status == 429 || a.status >= 500 then [] else a.batch
  }

  function Dropped(sent: seq<Answer>): seq<Row> {
    FlatMap(DroppedOf, sent)
  }

  lemma DroppedSnoc(sent: seq<Answer>, a: Answer)
    ensures Dropped(sent + [a]) == Dropped(sent) + DroppedOf(a)
  {
    FlatMapConcat(DroppedOf, sent, [a]);
    assert FlatMap(DroppedOf, [a]) == DroppedOf(a) + FlatMap(DroppedOf, []);
  }

  lemma DeletePrefix(front: seq<Row>, rest: seq<Row>)
    requires Ascending(front + rest)
    ensures Delete(front + rest, Ids(front)) == rest
  {
    forall r, x | r in rest && x in front ensures r.id != x.id {
      var i :| 0 <= i < |front| && front[i] == x;
      var j :| 0 <= j < |rest| && rest[j] == r;
      assert (front + rest)[i] == x && (front + rest)[|front| + j] == r;
    }
    DeleteLeading(front, rest, Ids(front));
    DeleteNone(rest, Ids(front));
  }

  lemma {:induction false} DeleteLeading(a: seq<Row>, b: seq<Row>, ids: set<nat>)
    requires forall r :: r in a ==> r.id in ids
    ensures Delete(a + b, ids) == Delete(b, ids)
  {
    if a == [] {
      assert a + b == b;
    } else {
      assert (a + b)[1..] == a[1..] + b;
      DeleteLeading(a[1..], b, ids);
    }
  }

  lemma {:induction false} DeleteNone(store: seq<Row>, ids: set<nat>)
    requires forall r :: r in store ==> r.id !in ids
    ensures Delete(store, ids) == store
  {
    if store != [] {
      DeleteNone(store[1..], ids);
    }
  }

  lemma RowsForSnoc(first: nat, pings: seq<Ping>, i: nat)
    requires i < |pings|
    ensures RowsFor(first, pings[..i + 1]) == RowsFor(first, pings[..i]) + [Row(first + i, pings[i])]
  {
  }

  lemma OneRowMore(rows: seq<Row>, id: nat, ping: Ping)
    requires Ascending(rows) && forall r :: r in rows ==> r.id < id
    ensures Ascending(rows + [Row(id, ping)]) && forall r :: r in rows + [Row(id, ping)] ==> r.id < id + 1
  {
  }

  /** The object store the page and the service worker share. */
  class PingStore {
    var rows: seq<Row>
    var nextId: nat

    ghost predicate Valid()
      reads this
    {
      Ascending(rows) && forall r :: r in rows ==> r.id < nextId
    }

    constructor ()
      ensures Valid() && rows == [] && nextId == 1
    {
      rows, nextId := [], 1;
    }

    method Add(pings: seq<Ping>)
      requires Valid()
      modifies this
      ensures Valid() && rows == old(rows) + RowsFor(old(nextId), pings) && nextId == old(nextId) + |pings|
    {
      for i := 0 to |pings|
        invariant Valid() && rows == old(rows) + RowsFor(old(nextId), pings[..i]) && nextId == old(nextId) + i
      {
        RowsForSnoc(old(nextId), pings, i);
        OneRowMore(rows, nextId, pings[i]);
        rows := rows + [Row(nextId, pings[i])];
        nextId := nextId + 1;
      }
      assert pings[..|pings|] == pings;
    }

    method DeleteBatch(batch: seq<Row>)
      requires Valid() && batch <= rows
      modifies this`rows
      ensures Valid() && old(rows) == batch + rows
    {
      ghost var rest := rows[|batch|..];
      assert rows == batch + rest;
      DeletePrefix(batch, rest);
      rows := Delete(rows, Ids(batch));
      assert forall i :: 0 <= i < |rest| ==> rest[i] == old(rows)[|batch| + i];
    }

    /** One POST: send the front of the queue and delete it if the answer is final. */
    method Round(status: int, arriving: seq<Ping>) returns (a: Answer, short: bool)
      requires Valid() && rows != []
      modifies this
      ensures Valid() && nextId == old(nextId) + |arriving|
      ensures a == Answer(Worker, status, FirstBatch(old(rows))) && short == (|old(rows)| <= 50)
      ensures a.batch <= old(rows) && |a.batch| == if short then |old(rows)| else 50
      ensures status == 429 || status >= 500 ==> rows == old(rows) + RowsFor(old(nextId), arriving)
      ensures status != 429 && status < 500 ==> old(rows) + RowsFor(old(nextId), arriving) == a.batch + rows
    {
      var snapshot := rows;
      var batch := FirstBatch(snapshot);
      a, short := Answer(Worker, status, batch), |snapshot| <= MAX_BATCH;
      Add(arriving);
      if status == 429 || status >= 500 {
        assert DroppedOf(a) == [] && [] + rows == rows;
        return;
      }
      assert batch <= snapshot <= rows;
      DeleteBatch(batch);
    }

    /**
     One flush with the store to itself. `reply(i)` is the status answered to POST number `i`, and
     `arrivals[i]` is what the page enqueues during it. The loop always ends.
     */
    method FlushQueue(reply: nat -> int, arrivals: seq<seq<Ping>>) returns (done: bool, sent: seq<Answer>)
      requires Valid()
      modifies this
      ensures Valid()
      ensures Flushed(old(rows), old(nextId), reply, arrivals, done, sent, rows)
    {
      sent := [];
      while true
        invariant Valid()
        invariant Balanced(old(rows), old(nextId), arrivals, sent, rows)
        invariant nextId == old(nextId) + |AllDuring(arrivals, |sent|)|
        invariant FullRounds(sent, reply)
        invariant sent == [] ==> rows == old(rows)
        invariant sent != [] ==> rows != []
        decreases if |sent| < |arrivals| then |arrivals| - |sent| else 0, |rows|
      {
        if rows == [] {
          done := true;
          return;
        }
        ghost var held := rows;
        var a, short := Round(reply(|sent|), During(arrivals, |sent|));
        RoundOutcome(old(rows), old(nextId), reply, arrivals, sent, held, a, rows);
        sent := sent + [a];
        if !Ok(a.status) {
          done := false;
          return;
        }
        if short {
          done := true;
          return;
        }
      }
    }
  }

  /** What was queued at the start and what came since is what was dropped and what is left. */
  ghost predicate Balanced(start: seq<Row>, first: nat, arrivals: seq<seq<Ping>>, sent: seq<Answer>, now: seq<Row>) {
    start + RowsFor(first, AllDuring(arrivals, |sent|)) == Dropped(sent) + now
  }

  /**
   A finished flush: the batches sent and dropped are, in order, exactly the front of the queue;
   every POST but the last carried a full batch and was accepted; `true` means that everything
   present when the last POST began was accepted and deleted; a batch answered with 429 or a
   status from 500 up stays at the front of the queue.
   */
  ghost predicate Flushed(start: seq<Row>, first: nat, reply: nat -> int, arrivals: seq<seq<Ping>>,
                          done: bool, sent: seq<Answer>, now: seq<Row>) {
    && Balanced(start, first, arrivals, sent, now)
    && if sent == [] then done && start == [] && now == []
       else
         var n := |sent| - 1;
         && FullRounds(sent[..n], reply) && SentAs(sent[n], reply(n)) && done == (200 <= sent[n].status <= 299)
         && (done ==> now == RowsFor(first + |AllDuring(arrivals, n)|, During(arrivals, n)))
         && (sent[n].status == 429 || sent[n].status >= 500 ==> sent[n].batch <= now)
  }

  /** One round either ends the flush or leaves it ready for the next round. */
  lemma RoundOutcome(start: seq<Row>, first: nat, reply: nat -> int, arrivals: seq<seq<Ping>>, sent: seq<Answer>,
                     held: seq<Row>, a: Answer, now: seq<Row>)
    requires Balanced(start, first, arrivals, sent, held) && FullRounds(sent, reply) && held != []
    requires a == Answer(Worker, reply(|sent|), FirstBatch(held))
    requires held + RowsFor(first + |AllDuring(arrivals, |sent|)|, During(arrivals, |sent|)) == DroppedOf(a) + now
    requires a.status == 429 || a.status >= 500 ==> a.batch <= now
    ensures Balanced(start, first, arrivals, sent + [a], now)
    ensures !Ok(a.status) || |held| <= MAX_BATCH ==>
      Flushed(start, first, reply, arrivals, Ok(a.status), sent + [a], now)
    ensures Ok(a.status) && |held| > MAX_BATCH ==>
      FullRounds(sent + [a], reply) && now != [] && (|sent| >= |arrivals| ==> |now| < |held|)
  {
    RoundBalance(start, first, arrivals, sent, held, a, now);
    assert (sent + [a])[..|sent|] == sent;
    if Ok(a.status) {
      var came := RowsFor(first + |AllDuring(arrivals, |sent|)|, During(arrivals, |sent|));
      assert DroppedOf(a) == a.batch;
      if |held| <= MAX_BATCH {
        CancelFront(a.batch, now, came);
      } else {
        assert |held + came| == |a.batch + now|;
      }
    }
  }

  predicate SentAs(a: Answer, status: int) {
    a.kind == Worker && a.status == status && 0 < |a.batch| <= 50
  }

  /** Every round so far sent a full batch and was answered with an ok status. */
  ghost predicate FullRounds(sent: seq<Answer>, reply: nat -> int) {
    forall i :: 0 <= i < |sent| ==> SentAs(sent[i], reply(i)) && 200 <= sent[i].status <= 299 && |sent[i].batch| == 50
  }

  /** A round moves what it dropped from the queue to the dropped batches. */
  lemma RoundBalance(start: seq<Row>, first: nat, arrivals: seq<seq<Ping>>, sent: seq<Answer>, held: seq<Row>, a: Answer,
                     now: seq<Row>)
    requires start + RowsFor(first, AllDuring(arrivals, |sent|)) == Dropped(sent) + held
    requires held + RowsFor(first + |AllDuring(arrivals, |sent|)|, During(arrivals, |sent|)) == DroppedOf(a) + now
    ensures start + RowsFor(first, AllDuring(arrivals, |sent| + 1)) == Dropped(sent + [a]) + now
  {
    DroppedSnoc(sent, a);
    RowsForConcat(first, AllDuring(arrivals, |sent|), During(arrivals, |sent|));
    Regroup(start, RowsFor(first, AllDuring(arrivals, |sent|)),
            RowsFor(first + |AllDuring(arrivals, |sent|)|, During(arrivals, |sent|)), Dropped(sent), held, DroppedOf(a), now);
  }

  lemma Regroup<T>(start: seq<T>, came: seq<T>, coming: seq<T>, gone: seq<T>, held: seq<T>, going: seq<T>, now: seq<T>)
    requires start + came == gone + held && held + coming == going + now
    ensures start + (came + coming) == (gone + going) + now
  {
    assert start + (came + coming) == (start + came) + coming;
    assert (gone + held) + coming == gone + (held + coming);
    assert gone + (going + now) == (gone + going) + now;
  }

  lemma CancelFront(front: seq<Row>, a: seq<Row>, b: seq<Row>)
    requires front + a == front + b
    ensures a == b
  {
    assert (front + a)[|front|..] == a && (front + b)[|front|..] == b;
  }

  lemma RowsForConcat(first: nat, a: seq<Ping>, b: seq<Ping>)
    ensures RowsFor(first, a + b) == RowsFor(first, a) + RowsFor(first + |a|, b)
  {
  }
}
