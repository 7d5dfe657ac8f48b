/** Which recordings to load: window results merged by id, then limited to the wanted users. */
module TrackInfos {
  import opened Seqs
  import opened Tracks

  // ------------------------------------------------------------------ reference

  function Ids(infos: seq<TrackInfo>): set<int> {
    set i | 0 <= i < |infos| :: infos[i].id
  }

  /** Keep the first info of each id. */
  function Dedup(infos: seq<TrackInfo>): seq<TrackInfo> {
    if infos == [] then []
    else
      var init, last := infos[..|infos| - 1], infos[|infos| - 1];
      if last.id in Ids(init) then Dedup(init) else Dedup(init) + [last]
  }

  /** Keep the infos of the wanted users. */
  function Wanted(infos: seq<TrackInfo>, users: set<int>): seq<TrackInfo> {
    if infos == [] then []
    else
      var init, last := infos[..|infos| - 1], infos[|infos| - 1];
      if last.userId in users then Wanted(init, users) + [last] else Wanted(init, users)
  }

  function Select(infos: seq<TrackInfo>, users: set<int>): seq<TrackInfo> {
    Dedup(Wanted(infos, users))
  }

  /** An info is the first of its id. */
  ghost predicate First(infos: seq<TrackInfo>, i: nat)
    requires i < |infos|
  {
    forall j :: 0 <= j < i ==> infos[j].id != infos[i].id
  }

  ghost predicate DistinctIds(infos: seq<TrackInfo>) {
    forall i, j :: 0 <= i < j < |infos| ==> infos[i].id != infos[j].id
  }

  lemma IdsSnoc(infos: seq<TrackInfo>, x: TrackInfo)
    ensures Ids(infos + [x]) == Ids(infos) + {x.id}
  {
    var all := infos + [x];
    assert all[|infos|] == x;
    forall i | 0 <= i < |infos| ensures infos[i].id in Ids(all) {
      assert all[i] == infos[i];
    }
  }

  lemma DedupSnoc(infos: seq<TrackInfo>, x: TrackInfo)
    ensures Dedup(infos + [x]) == if x.id in Ids(infos) then Dedup(infos) else Dedup(infos) + [x]
  {
    assert (infos + [x])[..|infos|] == infos;
  }

  lemma WantedSnoc(infos: seq<TrackInfo>, x: TrackInfo, users: set<int>)
    ensures Wanted(infos + [x], users) == if x.userId in users then Wanted(infos, users) + [x] else Wanted(infos, users)
  {
    assert (infos + [x])[..|infos|] == infos;
  }

  /** The result has each id once, and exactly the ids of the input. */
  lemma {:induction false} DedupIds(infos: seq<TrackInfo>)
    ensures DistinctIds(Dedup(infos)) && Ids(Dedup(infos)) == Ids(infos)
  {
    if infos != [] {
      var init, last := infos[..|infos| - 1], infos[|infos| - 1];
      assert infos == init + [last];
      DedupIds(init);
      IdsSnoc(init, last);
      if last.id !in Ids(init) {
        IdsSnoc(Dedup(init), last);
        assert forall i :: 0 <= i < |Dedup(init)| ==> Dedup(init)[i].id in Ids(Dedup(init));
      }
    }
  }

  /** `kept` are, in order, exactly the first infos of their ids; `at` are their positions. */
  ghost predicate Firsts(infos: seq<TrackInfo>, kept: seq<TrackInfo>, at: seq<nat>) {
    && |at| == |kept| && (forall k :: 0 <= k < |at| ==> at[k] < |infos| && First(infos, at[k]) && kept[k] == infos[at[k]])
    && (forall k, m :: 0 <= k < m < |at| ==> at[k] < at[m])
    && (forall i :: 0 <= i < |infos| && First(infos, i) ==> i in at)
  }

  lemma FirstSnoc(infos: seq<TrackInfo>, x: TrackInfo)
    ensures forall i :: 0 <= i < |infos| ==> (First(infos + [x], i) <==> First(infos, i))
    ensures First(infos + [x], |infos|) <==> x.id !in Ids(infos)
  {
    var all := infos + [x];
    assert forall i :: 0 <= i < |infos| ==> all[i] == infos[i];
    assert all[|infos|] == x;
  }

  lemma FirstsRepeated(infos: seq<TrackInfo>, kept: seq<TrackInfo>, at: seq<nat>, x: TrackInfo)
    requires Firsts(infos, kept, at) && x.id in Ids(infos)
    ensures Firsts(infos + [x], kept, at)
  {
    FirstSnoc(infos, x);
  }

  lemma FirstsNew(infos: seq<TrackInfo>, kept: seq<TrackInfo>, at: seq<nat>, x: TrackInfo)
    requires Firsts(infos, kept, at) && x.id !in Ids(infos)
    ensures Firsts(infos + [x], kept + [x], at + [|infos|])
  {
    FirstSnoc(infos, x);
  }

  /** What is kept are the first infos of their ids, in their order. */
  lemma {:induction false} DedupKeepsFirsts(infos: seq<TrackInfo>) returns (at: seq<nat>)
    ensures Firsts(infos, Dedup(infos), at)
  {
    if infos == [] {
      at := [];
    } else {
      var init, last := infos[..|infos| - 1], infos[|infos| - 1];
      at := DedupKeepsFirsts(init);
      assert infos == init + [last];
      if last.id in Ids(init) {
        FirstsRepeated(init, Dedup(init), at, last);
      } else {
        FirstsNew(init, Dedup(init), at, last);
        at := at + [|init|];
      }
    }
  }

  // ------------------------------------------------------------------ what is selected

  /** The info is of a wanted user, and no earlier one of a wanted user has its id. */
  ghost predicate FirstWanted(infos: seq<TrackInfo>, users: set<int>, i: nat)
    requires i < |infos|
  {
    infos[i].userId in users && forall j :: 0 <= j < i && infos[j].userId in users ==> infos[j].id != infos[i].id
  }

  /** `out` are, in order, exactly the first infos of their ids among the wanted users; `at` are their positions. */
  ghost predicate FirstsWanted(infos: seq<TrackInfo>, users: set<int>, out: seq<TrackInfo>, at: seq<nat>) {
    && |at| == |out| && (forall k, m :: 0 <= k < m < |at| ==> at[k] < at[m])
    && (forall k :: 0 <= k < |at| ==> at[k] < |infos| && FirstWanted(infos, users, at[k]) && out[k] == infos[at[k]])
    && (forall i :: 0 <= i < |infos| && FirstWanted(infos, users, i) ==> i in at)
  }

  ghost predicate SelectedFirsts(infos: seq<TrackInfo>, users: set<int>, out: seq<TrackInfo>) {
    exists at :: FirstsWanted(infos, users, out, at)
  }

  lemma FirstWantedSnoc(infos: seq<TrackInfo>, users: set<int>, x: TrackInfo)
    ensures forall i :: 0 <= i < |infos| ==> (FirstWanted(infos + [x], users, i) <==> FirstWanted(infos, users, i))
    ensures FirstWanted(infos + [x], users, |infos|) <==> x.userId in users && x.id !in Ids(Wanted(infos, users))
  {
    var all := infos + [x];
    WantedIds(infos, users, x.id);
    assert forall i :: 0 <= i < |infos| ==> all[i] == infos[i];
    assert all[|infos|] == x;
  }

  lemma FirstsWantedSnoc(infos: seq<TrackInfo>, users: set<int>, out: seq<TrackInfo>, at: seq<nat>, x: TrackInfo)
    requires FirstsWanted(infos, users, out, at)
    ensures if x.userId in users && x.id !in Ids(Wanted(infos, users))
            then FirstsWanted(infos + [x], users, out + [x], at + [|infos|])
            else FirstsWanted(infos + [x], users, out, at)
  {
    FirstWantedSnoc(infos, users, x);
  }

  /** What is selected are the first infos of their ids among the wanted users, in their order. */
  lemma {:induction false} SelectKeepsFirsts(infos: seq<TrackInfo>, users: set<int>) returns (at: seq<nat>)
    ensures FirstsWanted(infos, users, Select(infos, users), at)
  {
    if infos == [] {
      at := [];
    } else {
      var init, last := infos[..|infos| - 1], infos[|infos| - 1];
      at := SelectKeepsFirsts(init, users);
      assert infos == init + [last];
      FirstsWantedSnoc(init, users, Select(init, users), at, last);
      WantedSnoc(init, last, users);
      DedupSnoc(Wanted(init, users), last);
      if last.userId in users && last.id !in Ids(Wanted(init, users)) {
        at := at + [|init|];
      }
    }
  }

  // ------------------------------------------------------------------ merging, then selecting

  ghost predicate IdFixesUser(infos: seq<TrackInfo>) {
    forall i, j :: 0 <= i < |infos| && 0 <= j < |infos| && infos[i].id == infos[j].id ==> infos[i].userId == infos[j].userId
  }

  lemma {:induction false} WantedIds(infos: seq<TrackInfo>, users: set<int>, id: int)
    ensures id in Ids(Wanted(infos, users)) <==> exists i :: 0 <= i < |infos| && infos[i].id == id && infos[i].userId in users
  {
    if infos != [] {
      var init, last := infos[..|infos| - 1], infos[|infos| - 1];
      WantedIds(init, users, id);
      IdsSnoc(Wanted(init, users), last);
      assert forall i :: 0 <= i < |init| ==> init[i] == infos[i];
    }
  }

  lemma {:induction false} SelectAfterDedup(infos: seq<TrackInfo>, users: set<int>)
    requires IdFixesUser(infos)
    ensures Select(Dedup(infos), users) == Select(infos, users)
  {
    if infos != [] {
      var init, last := infos[..|infos| - 1], infos[|infos| - 1];
      assert infos == init + [last];
      assert IdFixesUser(init);
      SelectAfterDedup(init, users);
      WantedIds(init, users, last.id);
      DedupSnoc(Wanted(init, users), last);
      if last.id in Ids(init) {
        var i :| 0 <= i < |init| && init[i].id == last.id;
        assert infos[i].userId == infos[|init|].userId;
      } else {
        DedupIds(init);
        WantedSnoc(Dedup(init), last, users);
        DedupSnoc(Wanted(Dedup(init), users), last);
        WantedIds(Dedup(init), users, last.id);
      }
    }
  }

  lemma SelectIds(infos: seq<TrackInfo>, users: set<int>, id: int)
    ensures id in Ids(Select(infos, users)) <==> exists i :: 0 <= i < |infos| && infos[i].id == id && infos[i].userId in users
  {
    DedupIds(Wanted(infos, users));
    WantedIds(infos, users, id);
  }

  /** Two infos of one id with different users: selecting one of those users goes wrong. */
  lemma SharedIdBreaks(infos: seq<TrackInfo>, i: nat, j: nat) returns (users: set<int>)
    requires i < |infos| && j < |infos| && infos[i].id == infos[j].id && infos[i].userId != infos[j].userId
    ensures Select(Dedup(infos), users) != Select(infos, users)
  {
    DedupIds(infos);
    var id := infos[i].id;
    assert id in Ids(Dedup(infos));
    var k :| 0 <= k < |Dedup(infos)| && Dedup(infos)[k].id == id;
    var other := if Dedup(infos)[k].userId == infos[i].userId then j else i;
    users := {infos[other].userId};
    SelectIds(infos, users, id);
    SelectIds(Dedup(infos), users, id);
  }

  /**
   Merging the windows first never changes what any choice of users selects, exactly when an id
   always belongs to one user.
   */
  lemma DedupThenSelect(infos: seq<TrackInfo>)
    ensures (forall users :: Select(Dedup(infos), users) == Select(infos, users)) <==> IdFixesUser(infos)
  {
    if IdFixesUser(infos) {
      forall users ensures Select(Dedup(infos), users) == Select(infos, users) {
        SelectAfterDedup(infos, users);
      }
    } else {
      var i, j :| 0 <= i < |infos| && 0 <= j < |infos| && infos[i].id == infos[j].id && infos[i].userId != infos[j].userId;
      var users := SharedIdBreaks(infos, i, j);
    }
  }

  // ------------------------------------------------------------------ the loops

  /** `selectTrackInfosForUsers`. */
  method SelectTrackInfosForUsers(infos: seq<TrackInfo>, userIds: seq<int>) returns (out: seq<TrackInfo>)
    ensures out == Select(infos, set u | u in userIds) && DistinctIds(out)
    ensures SelectedFirsts(infos, (set u | u in userIds), out)
  {
    var wanted := set u | u in userIds;
    var seen: set<int> := {};
    out := [];
    for i := 0 to |infos|
      invariant out == Select(infos[..i], wanted) && seen == Ids(Wanted(infos[..i], wanted))
    {
      assert infos[..i + 1] == infos[..i] + [infos[i]];
      WantedSnoc(infos[..i], infos[i], wanted);
      DedupSnoc(Wanted(infos[..i], wanted), infos[i]);
      IdsSnoc(Wanted(infos[..i], wanted), infos[i]);
      if infos[i].userId in wanted && infos[i].id !in seen {
        seen := seen + {infos[i].id};
        out := out + [infos[i]];
      }
    }
    assert infos[..|infos|] == infos;
    DedupIds(Wanted(infos, wanted));
    var at := SelectKeepsFirsts(infos, wanted);
  }

  lemma PrefixGrows<T>(before: seq<T>, batch: seq<T>, i: nat)
    requires i < |batch|
    ensures before + batch[..i + 1] == (before + batch[..i]) + [batch[i]]
  {
  }

  lemma MergeStep(before: seq<TrackInfo>, batch: seq<TrackInfo>, i: nat)
    requires i < |batch|
    ensures var so, next := before + batch[..i], before + batch[..i + 1];
      && Dedup(next) == (if batch[i].id in Ids(so) then Dedup(so) else Dedup(so) + [batch[i]])
      && Ids(next) == Ids(so) + {batch[i].id}
  {
    PrefixGrows(before, batch, i);
    DedupSnoc(before + batch[..i], batch[i]);
    IdsSnoc(before + batch[..i], batch[i]);
  }

  /** Merge the window results, in window order. */
  method MergeWindows(windows: seq<seq<TrackInfo>>) returns (infos: seq<TrackInfo>)
    ensures infos == Dedup(Flatten(windows)) && DistinctIds(infos)
    ensures exists at :: Firsts(Flatten(windows), infos, at)
  {
    var seen: set<int> := {};
    infos := [];
    for w := 0 to |windows|
      invariant infos == Dedup(Flatten(windows[..w])) && seen == Ids(Flatten(windows[..w]))
    {
      var batch := windows[w];
      ghost var before := Flatten(windows[..w]);
      assert before + batch[..0] == before;
      for i := 0 to |batch|
        invariant infos == Dedup(before + batch[..i]) && seen == Ids(before + batch[..i])
      {
        MergeStep(before, batch, i);
        if batch[i].id !in seen {
          seen := seen + {batch[i].id};
          infos := infos + [batch[i]];
        }
      }
      assert batch[..|batch|] == batch;
      assert windows[..w + 1] == windows[..w] + [batch];
      FlattenSnoc(windows[..w], batch);
    }
    assert windows[..|windows|] == windows;
    DedupIds(Flatten(windows));
    var at := DedupKeepsFirsts(Flatten(windows));
  }

  /** A window answers with its infos, or fails. */
  type Answer = Option<seq<TrackInfo>>

  /** The windows of `done` have their results in place, and `failed` tells whether one of them failed. */
  ghost predicate InPlace(results: seq<seq<TrackInfo>>, failed: bool, answers: seq<Answer>, done: seq<nat>) {
    && |results| == |answers|
    && (forall k :: 0 <= k < |results| && k in done && answers[k].Some? ==> results[k] == answers[k].value)
    && (failed <==> exists k :: 0 <= k < |answers| && k in done && answers[k].None?)
  }

  function ValueOf(a: Answer): seq<TrackInfo> {
    if a.Some? then a.value else []
  }

  lemma OneMoreInPlace(results: seq<seq<TrackInfo>>, failed: bool, answers: seq<Answer>, done: seq<nat>, k: nat)
    requires InPlace(results, failed, answers, done) && k < |answers|
    ensures InPlace(results[k := ValueOf(answers[k])], failed || answers[k].None?, answers, done + [k])
  {
    assert forall i :: i in done + [k] <==> i in done || i == k;
  }

  /**
   The windows are fetched together and complete in any `order`; neither the result nor whether there
   is one depends on it. One failing window fails the whole fetch; every window is reported as it ends.
   */
  method FetchInfosInRange(answers: seq<Answer>, order: seq<nat>) returns (infos: Answer, reports: seq<nat>)
    requires |order| == |answers| && forall k :: 0 <= k < |answers| ==> k in order
    requires forall i :: 0 <= i < |order| ==> order[i] < |answers|
    ensures infos.None? <==> exists k :: 0 <= k < |answers| && answers[k].None?
    ensures infos.Some? ==> infos.value == Dedup(Flatten(Map(ValueOf, answers))) && DistinctIds(infos.value)
    ensures |reports| == |answers| + 1 && forall i :: 0 <= i < |reports| ==> reports[i] == i
  {
    var results: seq<seq<TrackInfo>> := seq(|answers|, i => []);
    var failed := false;
    reports := [0];
    var windowsDone := 0;
    while windowsDone < |order|
      invariant windowsDone <= |order| && InPlace(results, failed, answers, order[..windowsDone])
      invariant |reports| == windowsDone + 1 && forall i :: 0 <= i < |reports| ==> reports[i] == i
    {
      var k := order[windowsDone];
      assert order[..windowsDone + 1] == order[..windowsDone] + [k];
      OneMoreInPlace(results, failed, answers, order[..windowsDone], k);
      results := results[k := ValueOf(answers[k])];
      failed := failed || answers[k].None?;
      windowsDone := windowsDone + 1;
      reports := reports + [windowsDone];
    }
    assert order[..|order|] == order;
    if failed {
      return None, reports;
    }
    assert results == Map(ValueOf, answers);
    var merged := MergeWindows(results);
    infos := Some(merged);
  }
}
