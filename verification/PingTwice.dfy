/**
 When the server can accept a ping twice: exactly when a flusher takes a snapshot whose first batch
 holds a row that another flusher is sending or that the server has accepted already.
 */
module PingTwice {
  import opened Seqs
  import opened PingQueue

  // ------------------------------------------------------------------ rows at risk

  function SentBy(fl: Flusher): seq<Row> {
    if fl.phase.Posting? then fl.phase.batch else []
  }

  /** The rows under way to the server, flusher by flusher. */
  function UnderWay(flushers: seq<Flusher>): seq<Row> {
    Flatten(Map(SentBy, flushers))
  }

  /** How often each row was accepted or is under way. */
  ghost function Risk(s: System): multiset<Row> {
    multiset(Accepted(s.log)) + multiset(UnderWay(s.flushers))
  }

  ghost predicate AtMostOnce(m: multiset<Row>) {
    forall r :: m[r] <= 1
  }

  /** A snapshot taken now, by any flusher, takes a row that is under way or accepted. */
  ghost predicate Hazardous(s: System) {
    exists r :: r in FirstBatch(s.store) && r in Risk(s)
  }

  lemma {:induction false} UnderWayUpdate(flushers: seq<Flusher>, f: nat, fl: Flusher)
    requires f < |flushers|
    ensures multiset(UnderWay(flushers[f := fl])) + multiset(SentBy(flushers[f])) == multiset(UnderWay(flushers)) + multiset(SentBy(fl))
  {
    var before := Map(SentBy, flushers);
    assert Map(SentBy, flushers[f := fl]) == before[f := SentBy(fl)];
    FlattenUpdate(before, f, SentBy(fl));
  }

  lemma UnderWaySpawn(flushers: seq<Flusher>, kind: Kind)
    ensures UnderWay(flushers + [Flusher(kind, Idle)]) == UnderWay(flushers)
  {
    assert Map(SentBy, flushers + [Flusher(kind, Idle)]) == Map(SentBy, flushers) + [[]];
    FlattenSnoc(Map(SentBy, flushers), []);
  }

  lemma SetPhaseRisk(s: System, f: nat, phase: Phase)
    requires f < |s.flushers|
    ensures Risk(SetPhase(s, f, phase)) + multiset(SentBy(s.flushers[f]))
      == Risk(s) + multiset(if phase.Posting? then phase.batch else [])
  {
    var fl := Flusher(s.flushers[f].kind, phase);
    UnderWayUpdate(s.flushers, f, fl);
    AddToBoth(multiset(Accepted(s.log)), multiset(UnderWay(s.flushers[f := fl])), multiset(SentBy(s.flushers[f])),
              multiset(UnderWay(s.flushers)), multiset(SentBy(fl)));
  }

  lemma AddToBoth(m: multiset<Row>, a: multiset<Row>, b: multiset<Row>, c: multiset<Row>, d: multiset<Row>)
    requires a + b == c + d
    ensures (m + a) + b == (m + c) + d
  {
    forall r ensures ((m + a) + b)[r] == ((m + c) + d)[r] {
      assert (a + b)[r] == (c + d)[r];
    }
  }

  lemma QuietRisk(s: System, f: nat, phase: Phase)
    requires f < |s.flushers| && !s.flushers[f].phase.Posting? && !phase.Posting?
    ensures Risk(SetPhase(s, f, phase)) == Risk(s)
  {
    SetPhaseRisk(s, f, phase);
    var none: seq<Row> := [];
    assert SentBy(s.flushers[f]) == none && multiset(none) == multiset{};
    assert Risk(SetPhase(s, f, phase)) + multiset{} == Risk(SetPhase(s, f, phase)) && Risk(s) + multiset{} == Risk(s);
  }

  lemma LogRisk(s: System, a: Answer)
    ensures Risk(s.(log := s.log + [a])) == Risk(s) + multiset(AcceptedOf(a))
  {
    AcceptedSnoc(s.log, a);
  }

  // ------------------------------------------------------------------ how the risk moves

  lemma SnapshotRisk(s: System, e: Event)
    requires Enabled(s, e) && e.Snapshot?
    ensures Risk(Step(s, e)) == Risk(s) + multiset(FirstBatch(s.store))
  {
    SetPhaseRisk(s, e.f, Step(s, e).flushers[e.f].phase);
  }

  lemma AnswerRisk(s: System, f: nat, a: Answer, phase: Phase)
    requires f < |s.flushers| && s.flushers[f].phase.Posting? && a.batch == s.flushers[f].phase.batch && !phase.Posting?
    ensures Risk(SetPhase(s.(log := s.log + [a]), f, phase)) <= Risk(s)
  {
    LogRisk(s, a);
    SetPhaseRisk(s.(log := s.log + [a]), f, phase);
    CancelBatch(Risk(SetPhase(s.(log := s.log + [a]), f, phase)), multiset(a.batch), Risk(s), multiset(AcceptedOf(a)));
  }

  lemma CancelBatch(now: multiset<Row>, batch: multiset<Row>, was: multiset<Row>, moved: multiset<Row>)
    requires now + batch == was + moved && moved <= batch
    ensures now <= was
  {
    forall r ensures now[r] <= was[r] {
      assert (now + batch)[r] == (was + moved)[r];
    }
  }

  /** Only a snapshot puts rows at risk. */
  lemma OtherRisk(s: System, e: Event)
    requires Enabled(s, e) && !e.Snapshot?
    ensures Risk(Step(s, e)) <= Risk(s)
  {
    match e {
      case Spawn(kind) => UnderWaySpawn(s.flushers, kind);
      case Reply(f, status) =>
        var fl := s.flushers[f];
        AnswerRisk(s, f, Answer(fl.kind, status, fl.phase.batch),
                   if Final(fl.kind, status) then Phase.Answered(fl.phase.batch, status, fl.phase.short) else Done(false));
      case Lost(f, reached) =>
        var fl := s.flushers[f];
        if reached.Some? {
          AnswerRisk(s, f, Answer(fl.kind, reached.value, fl.phase.batch), Done(false));
        } else {
          SetPhaseRisk(s, f, Done(false));
          CancelBatch(Risk(Step(s, e)), multiset(fl.phase.batch), Risk(s), multiset{});
        }
      case Drop(f) =>
        var after := s.(store := Delete(s.store, Ids(s.flushers[f].phase.batch)));
        QuietRisk(after, f, Step(s, e).flushers[f].phase);
        assert Risk(after) == Risk(s);
      case Kill(f) =>
        SetPhaseRisk(s, f, Dead);
        CancelBatch(Risk(Step(s, e)), multiset(SentBy(s.flushers[f])), Risk(s), multiset{});
      case _ =>
    }
  }

  // ------------------------------------------------------------------ a batch has each row once

  lemma {:induction false} AscendingOnce(rows: seq<Row>)
    requires Ascending(rows)
    ensures AtMostOnce(multiset(rows))
  {
    if rows != [] {
      var init, last := rows[..|rows| - 1], rows[|rows| - 1];
      AscendingOnce(init);
      assert rows == init + [last];
      assert last !in init;
    }
  }

  lemma BatchOnce(store: seq<Row>)
    requires Ascending(store)
    ensures AtMostOnce(multiset(FirstBatch(store)))
  {
    AscendingOnce(FirstBatch(store));
  }

  // ------------------------------------------------------------------ careful runs

  /** No snapshot of the run takes a row that is under way or accepted. */
  ghost predicate Careful(events: seq<Event>) {
    Legal(Init(), events) &&
    (events == [] || (Careful(events[..|events| - 1]) &&
      (events[|events| - 1].Snapshot? ==>
        !Hazardous(After(Init(), events[..|events| - 1])))))
  }

  lemma DisjointOnce(a: multiset<Row>, b: multiset<Row>)
    requires AtMostOnce(a) && AtMostOnce(b) && forall r :: r in b ==> r !in a
    ensures AtMostOnce(a + b)
  {
  }

  lemma StepCareful(s: System, e: Event)
    requires Enabled(s, e) && StoreOrdered(s) && AtMostOnce(Risk(s)) && (e.Snapshot? ==> !Hazardous(s))
    ensures AtMostOnce(Risk(Step(s, e)))
  {
    if e.Snapshot? {
      SnapshotRisk(s, e);
      BatchOnce(s.store);
      DisjointOnce(Risk(s), multiset(FirstBatch(s.store)));
    } else {
      OtherRisk(s, e);
    }
  }

  lemma {:induction false} CarefulRisk(events: seq<Event>)
    requires Careful(events)
    ensures AtMostOnce(Risk(After(Init(), events)))
  {
    if events != [] {
      var init := events[..|events| - 1];
      CarefulRisk(init);
      AlwaysOrdered(init);
      StepCareful(After(Init(), init), events[|events| - 1]);
    }
  }

  /** Some row was accepted twice. */
  ghost predicate Twice(s: System) {
    exists r :: multiset(Accepted(s.log))[r] >= 2
  }

  /**
   With any number of flushers, kills and lost responses, no ping is accepted twice as long as no
   snapshot takes a row that is under way or accepted.
   */
  lemma NoPingTwice(events: seq<Event>)
    requires Careful(events)
    ensures !Twice(After(Init(), events))
  {
    CarefulRisk(events);
    forall r ensures multiset(Accepted(After(Init(), events).log))[r] <= 1 {
      assert Risk(After(Init(), events))[r] <= 1;
    }
  }

  // ------------------------------------------------------------------ the converse

  ghost predicate NoSnapshot(events: seq<Event>) {
    forall i :: 0 <= i < |events| ==> !events[i].Snapshot?
  }

  lemma RiskOrigin(s: System, r: Row) returns (g: nat)
    requires r in Risk(s) && r !in Accepted(s.log)
    ensures g < |s.flushers| && s.flushers[g].phase.Posting? && r in s.flushers[g].phase.batch
  {
    assert r in UnderWay(s.flushers);
    g := FlattenOrigin(Map(SentBy, s.flushers), r);
  }

  /** A posted batch can be accepted. */
  lemma AcceptBatch(events: seq<Event>, g: nat) returns (next: seq<Event>)
    requires Legal(Init(), events) && g < |After(Init(), events).flushers| && After(Init(), events).flushers[g].phase.Posting?
    ensures next == events + [Reply(g, 200)] && Legal(Init(), next)
    ensures var s, s' := After(Init(), events), After(Init(), next);
      && Accepted(s'.log) == Accepted(s.log) + s.flushers[g].phase.batch
      && |s'.flushers| == |s.flushers| && forall h :: 0 <= h < |s.flushers| && h != g ==> s'.flushers[h] == s.flushers[h]
  {
    OneMore(events, Reply(g, 200));
    next := events + [Reply(g, 200)];
    var s := After(Init(), events);
    AcceptedSnoc(s.log, Answer(s.flushers[g].kind, 200, s.flushers[g].phase.batch));
  }

  lemma TwoParts(a: seq<Row>, b: seq<Row>, r: Row)
    requires r in a && r in b
    ensures multiset(a + b)[r] >= 2
  {
  }

  /** The snapshot of a flusher that takes a row already accepted. */
  lemma AcceptedAgain(events: seq<Event>, f: nat, r: Row) returns (more: seq<Event>)
    requires Legal(Init(), events + [Snapshot(f)]) && f < |After(Init(), events + [Snapshot(f)]).flushers|
    requires var t := After(Init(), events + [Snapshot(f)]);
      t.flushers[f].phase.Posting? && r in t.flushers[f].phase.batch && r in Accepted(t.log)
    ensures NoSnapshot(more) && Legal(Init(), events + [Snapshot(f)] + more) && Twice(After(Init(), events + [Snapshot(f)] + more))
  {
    var taken := events + [Snapshot(f)];
    var t := After(Init(), taken);
    var one := AcceptBatch(taken, f);
    more := [Reply(f, 200)];
    TwoParts(Accepted(t.log), t.flushers[f].phase.batch, r);
    assert taken + more == one;
  }

  lemma AppendTwo<T>(s: seq<T>, x: T, y: T)
    ensures s + [x, y] == (s + [x]) + [y]
  {
  }

  /** Two flushers that send one row can both have it accepted. */
  lemma BothAccepted(taken: seq<Event>, f: nat, g: nat, r: Row)
    requires Legal(Init(), taken) && f != g
    requires var t := After(Init(), taken);
      && f < |t.flushers| && t.flushers[f].phase.Posting? && r in t.flushers[f].phase.batch
      && g < |t.flushers| && t.flushers[g].phase.Posting? && r in t.flushers[g].phase.batch
    ensures Legal(Init(), taken + [Reply(f, 200), Reply(g, 200)]) && Twice(After(Init(), taken + [Reply(f, 200), Reply(g, 200)]))
  {
    var t := After(Init(), taken);
    var one := AcceptBatch(taken, f);
    var two := AcceptBatch(one, g);
    AppendTwo(taken, Reply(f, 200), Reply(g, 200));
    TwoParts(Accepted(t.log) + t.flushers[f].phase.batch, t.flushers[g].phase.batch, r);
  }

  /** The snapshot of a flusher that takes a row another one is sending. */
  lemma SentAgain(events: seq<Event>, f: nat, g: nat, r: Row) returns (more: seq<Event>)
    requires Legal(Init(), events + [Snapshot(f)]) && f != g
    requires var t := After(Init(), events + [Snapshot(f)]);
      && f < |t.flushers| && t.flushers[f].phase.Posting? && r in t.flushers[f].phase.batch
      && g < |t.flushers| && t.flushers[g].phase.Posting? && r in t.flushers[g].phase.batch
    ensures NoSnapshot(more) && Legal(Init(), events + [Snapshot(f)] + more) && Twice(After(Init(), events + [Snapshot(f)] + more))
  {
    more := [Reply(f, 200), Reply(g, 200)];
    BothAccepted(events + [Snapshot(f)], f, g, r);
  }

  /** From any state where a snapshot takes a row at risk, some continuation without another snapshot accepts it twice. */
  lemma HazardousEndsTwice(events: seq<Event>, f: nat) returns (more: seq<Event>)
    requires Legal(Init(), events) && Enabled(After(Init(), events), Snapshot(f)) && Hazardous(After(Init(), events))
    ensures NoSnapshot(more) && Legal(Init(), events + [Snapshot(f)] + more) && Twice(After(Init(), events + [Snapshot(f)] + more))
  {
    var s := After(Init(), events);
    var r :| r in FirstBatch(s.store) && r in Risk(s);
    OneMore(events, Snapshot(f));
    if r in Accepted(s.log) {
      more := AcceptedAgain(events, f, r);
    } else {
      var g := RiskOrigin(s, r);
      more := SentAgain(events, f, g, r);
    }
  }

  lemma {:induction false} CarefulMore(events: seq<Event>, more: seq<Event>)
    requires Careful(events) && NoSnapshot(more) && Legal(Init(), events + more)
    ensures Careful(events + more)
  {
    if more == [] {
      assert events + more == events;
    } else {
      var init := more[..|more| - 1];
      assert (events + more)[..|events + more| - 1] == events + init;
      CarefulMore(events, init);
    }
  }

  /**
   After a run that was careful so far, taking a snapshot makes it possible that a ping is accepted
   twice, without any further snapshot, exactly when it takes a row under way or accepted.
   */
  lemma SnapshotSafeIff(events: seq<Event>, f: nat)
    requires Careful(events) && Enabled(After(Init(), events), Snapshot(f))
    ensures (exists more :: NoSnapshot(more) && Legal(Init(), events + [Snapshot(f)] + more)
               && Twice(After(Init(), events + [Snapshot(f)] + more)))
      <==> Hazardous(After(Init(), events))
  {
    if Hazardous(After(Init(), events)) {
      var more := HazardousEndsTwice(events, f);
    } else {
      OneMore(events, Snapshot(f));
      assert (events + [Snapshot(f)])[..|events|] == events;
      assert Careful(events + [Snapshot(f)]);
      forall more | NoSnapshot(more) && Legal(Init(), events + [Snapshot(f)] + more)
        ensures !Twice(After(Init(), events + [Snapshot(f)] + more))
      {
        CarefulMore(events + [Snapshot(f)], more);
        NoPingTwice(events + [Snapshot(f)] + more);
      }
    }
  }
}
