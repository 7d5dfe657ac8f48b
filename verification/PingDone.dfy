/**
 What a flush that reports success has done, among any number of flushers: the service worker tells the
 background sync to stop only then.
 */
module PingDone {
  import opened Seqs
  import opened PingQueue

  /** The store as flusher `f` last saw it. */
  ghost function LastSeen(events: seq<Event>, f: nat): Option<seq<Row>>
    requires Legal(Init(), events)
  {
    if events == [] then None
    else
      var init := events[..|events| - 1];
      if events[|events| - 1] == Snapshot(f) then Some(After(Init(), init).store) else LastSeen(init, f)
  }

  /** An answer to a batch of exactly these rows, after which they are deleted; a worker needs it accepted. */
  ghost predicate Settled(log: seq<Answer>, kind: Kind, rows: seq<Row>) {
    exists a :: a in log && a.kind == kind && a.batch == rows && a.status != 429 && a.status < 500
      && (if kind.Worker? then 200 <= a.status <= 299 else a.status != 401 && a.status != 403)
  }

  ghost predicate Enqueued(s: System, rows: seq<Row>) {
    forall r :: r in rows ==> r.id <= |s.enqueued|
  }

  /** The batch is the front of what was seen. */
  ghost predicate FrontOf(s: System, batch: seq<Row>, short: bool, seen: Option<seq<Row>>) {
    seen.Some? && Enqueued(s, seen.value) && batch == FirstBatch(seen.value) && (short <==> |seen.value| <= MAX_BATCH)
  }

  ghost predicate AllSent(s: System, kind: Kind, seen: Option<seq<Row>>) {
    seen.Some? && Enqueued(s, seen.value) && (forall r :: r in seen.value ==> r !in s.store)
    && (seen.value == [] || Settled(s.log, kind, seen.value))
  }

  /** What a flusher's phase says about what it saw last. */
  ghost predicate Knows(s: System, fl: Flusher, seen: Option<seq<Row>>) {
    match fl.phase
    case Posting(batch, short) => FrontOf(s, batch, short, seen)
    case Answered(batch, status, short) =>
      FrontOf(s, batch, short, seen) && Final(fl.kind, status) && Answer(fl.kind, status, batch) in s.log
    case Done(result) => result ==> AllSent(s, fl.kind, seen)
    case _ => true
  }

  /** Rows that are gone do not come back: a new row gets a new id. */
  lemma GoneStaysGone(s: System, e: Event, rows: seq<Row>)
    requires Enabled(s, e) && Enqueued(s, rows) && forall r :: r in rows ==> r !in s.store
    ensures Enqueued(Step(s, e), rows) && forall r :: r in rows ==> r !in Step(s, e).store
  {
  }

  lemma SettledStays(log: seq<Answer>, more: seq<Answer>, kind: Kind, rows: seq<Row>)
    requires Settled(log, kind, rows) && log <= more
    ensures Settled(more, kind, rows)
  {
  }

  lemma OthersKnow(s: System, e: Event, f: nat, seen: Option<seq<Row>>)
    requires Enabled(s, e) && f < |s.flushers| && Knows(s, s.flushers[f], seen)
    requires Step(s, e).flushers[f] == s.flushers[f]
    ensures Knows(Step(s, e), s.flushers[f], seen)
  {
    if AllSent(s, s.flushers[f].kind, seen) {
      GoneStaysGone(s, e, seen.value);
      if seen.value != [] {
        assert s.log <= Step(s, e).log;
        SettledStays(s.log, Step(s, e).log, s.flushers[f].kind, seen.value);
      }
    }
  }

  /** A short batch that was deleted is everything that was seen. */
  lemma DropKnows(s: System, e: Event, seen: Option<seq<Row>>)
    requires Enabled(s, e) && e.Drop? && Knows(s, s.flushers[e.f], seen)
    ensures Knows(Step(s, e), Step(s, e).flushers[e.f], seen)
  {
    var Flusher(kind, Answered(batch, status, short)) := s.flushers[e.f];
    if short && (kind.Worker? ==> Ok(status)) {
      assert batch == seen.value;
      assert Answer(kind, status, batch) in Step(s, e).log;
      assert Settled(Step(s, e).log, kind, batch);
    }
  }

  lemma StepKnows(s: System, e: Event, f: nat, seen: Option<seq<Row>>)
    requires Enabled(s, e) && StoreOrdered(s) && f < |s.flushers| && Knows(s, s.flushers[f], seen)
    ensures Knows(Step(s, e), Step(s, e).flushers[f], if e == Snapshot(f) then Some(s.store) else seen)
  {
    match e {
      case Drop(g) =>
        if g == f {
          DropKnows(s, e, seen);
        } else {
          OthersKnow(s, e, f, seen);
        }
      case Snapshot(g) =>
        if g != f {
          OthersKnow(s, e, f, seen);
        }
      case Reply(g, status) =>
        if g != f {
          OthersKnow(s, e, f, seen);
        }
      case Lost(g, _) =>
        if g != f {
          OthersKnow(s, e, f, seen);
        }
      case Kill(g) =>
        if g != f {
          OthersKnow(s, e, f, seen);
        }
      case _ => OthersKnow(s, e, f, seen);
    }
  }

  lemma {:induction false} AlwaysKnows(events: seq<Event>, f: nat)
    requires Legal(Init(), events) && f < |After(Init(), events).flushers|
    ensures Knows(After(Init(), events), After(Init(), events).flushers[f], LastSeen(events, f))
  {
    if events != [] {
      var init := events[..|events| - 1];
      var s := After(Init(), init);
      if f < |s.flushers| {
        AlwaysKnows(init, f);
        AlwaysOrdered(init);
        StepKnows(s, events[|events| - 1], f, LastSeen(init, f));
      }
    }
  }

  lemma {:induction false} AcceptedIn(log: seq<Answer>, a: Answer, r: Row)
    requires a in log && 200 <= a.status <= 299 && r in a.batch
    ensures r in Accepted(log)
  {
    if log[0] != a {
      AcceptedIn(log[1..], a, r);
    }
  }

  /**
   With any number of flushers, kills and lost responses: when a flush has ended with `true`, everything
   in the store as it last saw it was dealt with by the server, a service worker's even accepted, and is
   not in the store any more, then or later.
   */
  lemma TrueMeansSent(events: seq<Event>, f: nat)
    requires Legal(Init(), events) && f < |After(Init(), events).flushers|
    requires After(Init(), events).flushers[f].phase == Done(true)
    ensures LastSeen(events, f).Some?
    ensures forall r :: r in LastSeen(events, f).value ==>
      var s := After(Init(), events);
      r !in s.store && DealtWith(s.log, r) && (s.flushers[f].kind.Worker? ==> r in Accepted(s.log))
  {
    AlwaysKnows(events, f);
    var s, seen := After(Init(), events), LastSeen(events, f).value;
    forall r | r in seen
      ensures r !in s.store && DealtWith(s.log, r) && (s.flushers[f].kind.Worker? ==> r in Accepted(s.log))
    {
      var kind := s.flushers[f].kind;
      var a :| a in s.log && a.kind == kind && a.batch == seen && a.status != 429 && a.status < 500
        && (if kind.Worker? then 200 <= a.status <= 299 else a.status != 401 && a.status != 403);
      if kind.Worker? {
        AcceptedIn(s.log, a, r);
      }
    }
  }
}
