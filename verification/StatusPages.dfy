/** The paging loop over the last known status of every user. */
module StatusPages {
  import opened Seqs

  const STATUS_PAGE_SIZE := 1000
  const MAX_PAGES := 50

  /** Keep what an item normalises to, if anything. */
  function Normalized<T, R>(normalize: T -> Option<R>, items: seq<T>): seq<R> {
    FlatMap(item => match normalize(item) case None => [] case Some(row) => [row], items)
  }

  /** The items met by following pages from `from`, at most `left` of them, up to the first short one. */
  function Walk<T>(server: nat -> seq<T>, from: nat, left: nat): seq<T>
    decreases left
  {
    if left == 0 then []
    else
      var chunk := server(from);
      if |chunk| < STATUS_PAGE_SIZE then chunk else chunk + Walk(server, from + |chunk|, left - 1)
  }

  /** How many pages that takes. */
  function Requests<T>(server: nat -> seq<T>, from: nat, left: nat): nat
    decreases left
  {
    if left == 0 then 0
    else
      var chunk := server(from);
      if |chunk| < STATUS_PAGE_SIZE then 1 else 1 + Requests(server, from + |chunk|, left - 1)
  }

  /** `server(from)` is the page the server answers for that index. */
  method FetchUsersStatus<T, R>(server: nat -> seq<T>, normalize: T -> Option<R>)
    returns (out: seq<R>, requests: nat)
    ensures out == Normalized(normalize, Walk(server, 0, MAX_PAGES))
    ensures requests == Requests(server, 0, MAX_PAGES)
  {
    out, requests := [], 0;
    var fromIndex: nat := 0;
    ghost var met: seq<T> := [];
    for page := 0 to MAX_PAGES
      invariant out == Normalized(normalize, met)
      invariant met + Walk(server, fromIndex, MAX_PAGES - page) == Walk(server, 0, MAX_PAGES)
      invariant requests + Requests(server, fromIndex, MAX_PAGES - page) == Requests(server, 0, MAX_PAGES)
    {
      var chunk := server(fromIndex);
      PageArrives(server, normalize, met, fromIndex, MAX_PAGES - page);
      out := out + Normalized(normalize, chunk);
      met := met + chunk;
      requests := requests + 1;
      if |chunk| < STATUS_PAGE_SIZE {
        assert met + [] == met;
        return;
      }
      fromIndex := fromIndex + |chunk|;
    }
    assert met + [] == met;
  }

  lemma PageArrives<T, R>(server: nat -> seq<T>, normalize: T -> Option<R>, met: seq<T>, from: nat, left: nat)
    requires left > 0
    ensures var chunk := server(from);
      && Normalized(normalize, met + chunk) == Normalized(normalize, met) + Normalized(normalize, chunk)
      && met + Walk(server, from, left)
        == if |chunk| < STATUS_PAGE_SIZE then (met + chunk) + [] else (met + chunk) + Walk(server, from + |chunk|, left - 1)
  {
    FlatMapConcat(item => match normalize(item) case None => [] case Some(row) => [row], met, server(from));
  }

  function Least(a: nat, b: nat): nat {
    if a <= b then a else b
  }

  /** A server that answers slices of one list. */
  function Slice<T>(items: seq<T>, from: nat): seq<T> {
    if from >= |items| then [] else items[from..Least(from + STATUS_PAGE_SIZE, |items|)]
  }

  /** Against slices of a fixed list, the pages neither overlap nor leave gaps. */
  lemma {:induction false} WalkOfSlices<T>(items: seq<T>, from: nat, left: nat)
    requires from <= |items|
    ensures Walk(i => Slice(items, i), from, left) == items[from..Least(from + left * STATUS_PAGE_SIZE, |items|)]
    ensures Requests(i => Slice(items, i), from, left) == Least(left, (|items| - from) / STATUS_PAGE_SIZE + 1)
    decreases left
  {
    var server := i => Slice(items, i);
    if left > 0 {
      assert server(from) == Slice(items, from);
      if from + STATUS_PAGE_SIZE <= |items| {
        WalkOfSlices(items, from + STATUS_PAGE_SIZE, left - 1);
        PagesLeft(|items|, from, left);
        JoinSlices(items, from, from + STATUS_PAGE_SIZE, Least(from + left * STATUS_PAGE_SIZE, |items|));
      }
    }
  }

  /** A full page fewer to come. */
  lemma PagesLeft(n: nat, from: nat, left: nat)
    requires from + STATUS_PAGE_SIZE <= n && left > 0
    ensures (n - from) / STATUS_PAGE_SIZE == (n - (from + STATUS_PAGE_SIZE)) / STATUS_PAGE_SIZE + 1
    ensures from + left * STATUS_PAGE_SIZE == from + STATUS_PAGE_SIZE + (left - 1) * STATUS_PAGE_SIZE
  {
  }

  lemma JoinSlices<T>(items: seq<T>, a: nat, b: nat, c: nat)
    requires a <= b <= c <= |items|
    ensures items[a..b] + items[b..c] == items[a..c]
  {
  }

  /**
   Against a server of slices the loop sees exactly the first min(n, 50 pages) items, in
   min(50, n / 1000 + 1) requests: a full last page costs one more, and an empty list one.
   */
  lemma WholeListFetched<T, R>(items: seq<T>, normalize: T -> Option<R>) returns (at: seq<nat>)
    ensures var server := i => Slice(items, i);
      var met := if |items| <= 50000 then items else items[..50000];
      && KeptAt(normalize, met, Normalized(normalize, Walk(server, 0, MAX_PAGES)), at)
      && Requests(server, 0, MAX_PAGES) == (if |items| < 50000 then |items| / 1000 + 1 else 50)
  {
    WalkOfSlices(items, 0, MAX_PAGES);
    assert items[0..Least(MAX_PAGES * STATUS_PAGE_SIZE, |items|)] == if |items| <= 50000 then items else items[..50000];
    at := NormalizedKeeps(normalize, if |items| <= 50000 then items else items[..50000]);
  }

  /** The rows are, in order, what the items normalise to, without the items that normalise to nothing. */
  lemma {:induction false} NormalizedKeeps<T, R>(normalize: T -> Option<R>, items: seq<T>) returns (at: seq<nat>)
    ensures KeptAt(normalize, items, Normalized(normalize, items), at)
  {
    if items == [] {
      at := [];
    } else {
      var init, last := items[..|items| - 1], items[|items| - 1];
      at := NormalizedKeeps(normalize, init);
      assert items == init + [last];
      NormalizedSnoc(normalize, init, last);
      if normalize(last).None? {
        KeptNone(normalize, init, Normalized(normalize, init), at, last);
      } else {
        KeptMore(normalize, init, Normalized(normalize, init), at, last);
        at := at + [|init|];
      }
    }
  }

  lemma NormalizedSnoc<T, R>(normalize: T -> Option<R>, items: seq<T>, x: T)
    ensures Normalized(normalize, items + [x])
      == match normalize(x) case None => Normalized(normalize, items) case Some(row) => Normalized(normalize, items) + [row]
  {
    var f := (item: T) => match normalize(item) case None => [] case Some(row) => [row];
    FlatMapConcat(f, items, [x]);
    assert FlatMap(f, [x]) == f(x) + FlatMap(f, []);
    assert Normalized(normalize, items + [x]) == FlatMap(f, items + [x]);
  }
}
