/**
 The sliding-window pool: runners share one counter, and each takes the next item as soon as it has
 finished its last one. The workers of different items interleave in any way.
 */
module Pool {
  import opened Seqs

  datatype Runner = Free | Busy(index: nat) | Stopped

  /** `started` is the order in which indices were taken. */
  datatype State<R> = State(next: nat, runners: seq<Runner>, results: map<nat, R>, started: seq<nat>)

  /** A runner takes the next index, or stops; or the worker of its item settles. */
  datatype Event<R> = Take(r: nat) | Settle(r: nat, value: R)

  /** How many runners work at once. */
  function Limit(concurrency: int, items: nat): nat {
    var most := if concurrency <= items then concurrency else items;
    if most > 1 then most else 1
  }

  function Init<R>(concurrency: int, items: nat): State<R> {
    State(0, if items == 0 then [] else seq(Limit(concurrency, items), i => Free), map[], [])
  }

  predicate Enabled<R>(s: State<R>, e: Event<R>) {
    match e
    case Take(r) => r < |s.runners| && s.runners[r].Free?
    case Settle(r, _) => r < |s.runners| && s.runners[r].Busy?
  }

  function Step<R>(items: nat, s: State<R>, e: Event<R>): State<R>
    requires Enabled(s, e)
  {
    match e
    case Take(r) =>
      if s.next >= items then s.(next := s.next + 1, runners := s.runners[r := Stopped])
      else s.(next := s.next + 1, runners := s.runners[r := Busy(s.next)], started := s.started + [s.next])
    case Settle(r, value) =>
      s.(runners := s.runners[r := Free], results := s.results[s.runners[r].index := value])
  }

  predicate Legal<R>(items: nat, s: State<R>, events: seq<Event<R>>)
    decreases |events|, 0
  {
    events == [] || (Legal(items, s, events[..|events| - 1])
      && Enabled(After(items, s, events[..|events| - 1]), events[|events| - 1]))
  }

  function After<R>(items: nat, s: State<R>, events: seq<Event<R>>): State<R>
    requires Legal(items, s, events)
    decreases |events|, 1
  {
    if events == [] then s else Step(items, After(items, s, events[..|events| - 1]), events[|events| - 1])
  }

  /** The pool has returned: every runner has stopped. */
  predicate Returned<R>(s: State<R>) {
    forall r :: 0 <= r < |s.runners| ==> s.runners[r].Stopped?
  }

  // ------------------------------------------------------------------ what every step keeps

  function Least(a: nat, b: nat): nat {
    if a <= b then a else b
  }

  ghost predicate BusyOn<R>(s: State<R>, index: nat) {
    exists r :: 0 <= r < |s.runners| && s.runners[r] == Busy(index)
  }

  /** Indices were taken once each, in order; a taken index is in work at one runner or has its result. */
  ghost predicate InHand<R>(items: nat, s: State<R>) {
    && |s.started| == Least(s.next, items) && (forall i :: 0 <= i < |s.started| ==> s.started[i] == i)
    && (forall r :: 0 <= r < |s.runners| && s.runners[r].Busy? ==>
          s.runners[r].index < |s.started| && s.runners[r].index !in s.results)
    && (forall q, r :: 0 <= q < r < |s.runners| && s.runners[q].Busy? && s.runners[r].Busy? ==>
          s.runners[q].index != s.runners[r].index)
    && (forall i: nat :: i < |s.started| ==> i in s.results || BusyOn(s, i))
    && (forall i :: i in s.results ==> i < |s.started|)
    && (forall r :: 0 <= r < |s.runners| && s.runners[r].Stopped? ==> s.next > items)
  }

  lemma TakeKeeps<R>(items: nat, s: State<R>, r: nat)
    requires InHand(items, s) && Enabled(s, Event<R>.Take(r))
    ensures InHand(items, Step(items, s, Event<R>.Take(r)))
  {
    var s' := Step(items, s, Event<R>.Take(r));
    forall i: nat | i < |s'.started| ensures i in s'.results || BusyOn(s', i) {
      if i < |s.started| {
        if i !in s.results {
          var q :| 0 <= q < |s.runners| && s.runners[q] == Busy(i);
          assert s'.runners[q] == Busy(i);
        }
      } else {
        assert s'.runners[r] == Busy(i);
      }
    }
  }

  lemma SettleKeeps<R>(items: nat, s: State<R>, r: nat, value: R)
    requires InHand(items, s) && Enabled(s, Settle(r, value))
    ensures InHand(items, Step(items, s, Settle(r, value)))
  {
    var s' := Step(items, s, Settle(r, value));
    forall i: nat | i < |s'.started| ensures i in s'.results || BusyOn(s', i) {
      if i !in s'.results {
        var q :| 0 <= q < |s.runners| && s.runners[q] == Busy(i);
        assert s'.runners[q] == Busy(i);
      }
    }
  }

  lemma {:induction false} AlwaysInHand<R>(concurrency: int, items: nat, events: seq<Event<R>>)
    requires Legal(items, Init<R>(concurrency, items), events)
    ensures var s := After(items, Init<R>(concurrency, items), events);
      InHand(items, s) && |s.runners| == if items == 0 then 0 else Limit(concurrency, items)
  {
    if events != [] {
      var init, e := events[..|events| - 1], events[|events| - 1];
      AlwaysInHand(concurrency, items, init);
      var s := After(items, Init<R>(concurrency, items), init);
      if e.Take? {
        TakeKeeps(items, s, e.r);
      } else {
        SettleKeeps(items, s, e.r, e.value);
      }
    }
  }

  // ------------------------------------------------------------------ what the caller gets

  /** The indices in work. */
  ghost function InWork<R>(s: State<R>): set<nat> {
    set r | 0 <= r < |s.runners| && s.runners[r].Busy? :: s.runners[r].index
  }

  lemma {:induction false} RunnersBound(runners: seq<Runner>)
    ensures |set r | 0 <= r < |runners| && runners[r].Busy? :: runners[r].index| <= |runners|
  {
    var all := set r | 0 <= r < |runners| && runners[r].Busy? :: runners[r].index;
    if runners == [] {
      assert all == {};
    } else {
      var init, last := runners[..|runners| - 1], runners[|runners| - 1];
      var before := set r | 0 <= r < |init| && init[r].Busy? :: init[r].index;
      RunnersBound(init);
      assert all == before + if last.Busy? then {last.index} else {};
    }
  }

  /** At every moment: indices are started in order, once each, and no more are in work than the limit allows. */
  lemma EachStartedOnce<R>(concurrency: int, items: nat, events: seq<Event<R>>)
    requires Legal(items, Init<R>(concurrency, items), events)
    ensures var s := After(items, Init<R>(concurrency, items), events);
      && |s.started| <= items && (forall i :: 0 <= i < |s.started| ==> s.started[i] == i)
      && |InWork(s)| <= (if concurrency > 1 then concurrency else 1) && |InWork(s)| <= items
      && |s.runners| == (if items == 0 then 0 else if concurrency <= 1 then 1 else if concurrency <= items then concurrency else items)
  {
    AlwaysInHand(concurrency, items, events);
    RunnersBound(After(items, Init<R>(concurrency, items), events).runners);
  }

  /** When the pool returns, every item has been worked on and has its result. */
  lemma AllDoneOnReturn<R>(concurrency: int, items: nat, events: seq<Event<R>>)
    requires Legal(items, Init<R>(concurrency, items), events) && Returned(After(items, Init<R>(concurrency, items), events))
    ensures forall i: nat :: i in After(items, Init<R>(concurrency, items), events).results <==> i < items
    ensures |After(items, Init<R>(concurrency, items), events).started| == items
  {
    AlwaysInHand(concurrency, items, events);
    var s := After(items, Init<R>(concurrency, items), events);
    if items > 0 {
      assert s.runners[0].Stopped?;
    }
  }

  /** The result of an item is what its own worker gave, and no other. */
  lemma {:induction false} ResultsAreOwn<R(!new)>(concurrency: int, items: nat, work: nat -> R, events: seq<Event<R>>)
    requires Legal(items, Init<R>(concurrency, items), events) && Faithful(concurrency, items, work, events)
    ensures forall i :: i in After(items, Init<R>(concurrency, items), events).results ==>
      After(items, Init<R>(concurrency, items), events).results[i] == work(i)
  {
    if events != [] {
      ResultsAreOwn(concurrency, items, work, events[..|events| - 1]);
    }
  }

  /** Each worker gives what `work` gives for its index. */
  ghost predicate Faithful<R(!new)>(concurrency: int, items: nat, work: nat -> R, events: seq<Event<R>>)
    requires Legal(items, Init<R>(concurrency, items), events)
  {
    events == [] ||
    var init, e := events[..|events| - 1], events[|events| - 1];
    Faithful(concurrency, items, work, init)
    && (e.Settle? ==> e.value == work(After(items, Init<R>(concurrency, items), init).runners[e.r].index))
  }

  // ------------------------------------------------------------------ the pool object

  /** One call of the pool; `View` is its state in the model above. */
  class MapPool<R> {
    const items: nat
    var next: nat
    var runners: seq<Runner>
    var results: map<nat, R>
    ghost var started: seq<nat>

    ghost function View(): State<R>
      reads this
    {
      State(next, runners, results, started)
    }

    constructor (concurrency: int, items: nat)
      ensures this.items == items && View() == Init<R>(concurrency, items)
    {
      this.items, next, results, started := items, 0, map[], [];
      var limit := Limit(concurrency, items);
      runners := if items == 0 then [] else seq(limit, i => Free);
    }

    method Perform(e: Event<R>)
      requires Enabled(View(), e)
      modifies this
      ensures View() == Step(items, old(View()), e)
    {
      match e {
        case Take(r) =>
          var index := next;
          next := next + 1;
          if index >= items {
            runners := runners[r := Stopped];
          } else {
            runners := runners[r := Busy(index)];
            started := started + [index];
          }
        case Settle(r, value) =>
          results := results[runners[r].index := value];
          runners := runners[r := Free];
      }
    }
  }
}
