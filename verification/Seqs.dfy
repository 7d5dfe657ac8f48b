/** Sequence vocabulary shared by the models: options, flattening, and permutation facts. */
module Seqs {
  datatype Option<+T> = None | Some(value: T)

  lemma ConcatAssoc<T>(a: seq<T>, b: seq<T>, c: seq<T>)
    ensures (a + b) + c == a + (b + c)
  {
  }

  /** Concatenation of a list of lists, in order. */
  function Flatten<T>(lists: seq<seq<T>>): seq<T> {
    if lists == [] then [] else lists[0] + Flatten(lists[1..])
  }

  lemma {:induction false} FlattenConcat<T>(a: seq<seq<T>>, b: seq<seq<T>>)
    ensures Flatten(a + b) == Flatten(a) + Flatten(b)
  {
    if a == [] {
      assert a + b == b;
    } else {
      assert (a + b)[1..] == a[1..] + b;
      FlattenConcat(a[1..], b);
    }
  }

  lemma FlattenSnoc<T>(a: seq<seq<T>>, x: seq<T>)
    ensures Flatten(a + [x]) == Flatten(a) + x
  {
    FlattenConcat(a, [x]);
    assert Flatten([x]) == x + Flatten([]) == x;
  }

  lemma FlattenSplit<T>(a: seq<seq<T>>, i: nat)
    requires i < |a|
    ensures Flatten(a) == Flatten(a[..i]) + a[i] + Flatten(a[i + 1..])
  {
    assert a == a[..i] + a[i..];
    FlattenConcat(a[..i], a[i..]);
    assert a[i..][1..] == a[i + 1..];
  }

  /** Replacing one list swaps exactly its elements in the flattened multiset. */
  lemma FlattenUpdate<T>(a: seq<seq<T>>, i: nat, x: seq<T>)
    requires i < |a|
    ensures multiset(Flatten(a[i := x])) + multiset(a[i]) == multiset(Flatten(a)) + multiset(x)
  {
    FlattenSplit(a, i);
    FlattenSplit(a[i := x], i);
    assert a[i := x][..i] == a[..i] && a[i := x][i + 1..] == a[i + 1..];
  }

  lemma {:induction false} FlattenMember<T>(a: seq<seq<T>>, i: nat, x: T)
    requires i < |a| && x in a[i]
    ensures x in Flatten(a)
  {
    if i != 0 {
      FlattenMember(a[1..], i - 1, x);
    }
  }

  lemma {:induction false} FlattenOrigin<T>(a: seq<seq<T>>, x: T) returns (i: nat)
    requires x in Flatten(a)
    ensures i < |a| && x in a[i]
  {
    if x in a[0] {
      i := 0;
    } else {
      var k := FlattenOrigin(a[1..], x);
      i := k + 1;
    }
  }

  lemma {:induction false} FlattenEmpty<T>(a: seq<seq<T>>)
    requires forall i :: 0 <= i < |a| ==> a[i] == []
    ensures Flatten(a) == []
  {
    if a != [] {
      FlattenEmpty(a[1..]);
    }
  }

  /** Removing one position removes one copy from the multiset. */
  function RemoveAt<T>(s: seq<T>, i: nat): (r: seq<T>)
    requires i < |s|
    ensures |r| == |s| - 1
    ensures multiset(r) + multiset{s[i]} == multiset(s)
  {
    assert s == s[..i] + [s[i]] + s[i + 1..];
    s[..i] + s[i + 1..]
  }

  /** Two partitions, side by side, partition the concatenation. */
  lemma PartitionConcat<T>(a: seq<T>, b: seq<T>, x: seq<T>, c: seq<T>, d: seq<T>, y: seq<T>)
    requires multiset(a) + multiset(b) == multiset(x) && multiset(c) + multiset(d) == multiset(y)
    ensures multiset(a + c) + multiset(b + d) == multiset(x + y)
  {
  }

  /** What moves from the open part to the done part leaves the whole unchanged. */
  lemma MoveMultisets<T>(done: multiset<T>, open: multiset<T>, whole: multiset<T>, moved: multiset<T>, open': multiset<T>)
    requires done + open == whole && open == open' + moved
    ensures (done + moved) + open' == whole
  {
  }

  lemma CancelMultisets<T>(whole: multiset<T>, part: multiset<T>, whole': multiset<T>, part': multiset<T>, gone: multiset<T>)
    requires whole' + part == whole + part' && part == part' + gone
    ensures whole == whole' + gone
  {
    forall x ensures whole[x] == (whole' + gone)[x] {
      assert (whole' + part)[x] == (whole + part')[x];
    }
  }

  lemma CancelSame<T>(a: multiset<T>, b: multiset<T>, common: multiset<T>)
    requires a + common == b + common
    ensures a == b
  {
    forall x ensures a[x] == b[x] {
      assert (a + common)[x] == (b + common)[x];
    }
  }

  ghost predicate Distinct<T>(s: seq<T>) {
    forall i, j :: 0 <= i < j < |s| ==> s[i] != s[j]
  }

  /** The elements of `s`, as a set. */
  ghost function Elements<T>(s: seq<T>): set<T> {
    set x | x in s
  }

  lemma SubsetSize<T>(a: set<T>, b: set<T>)
    requires a <= b
    ensures |a| <= |b|
    ensures |a| == |b| ==> a == b
  {
    assert b == a + (b - a);
    if |a| == |b| {
      assert |b - a| == 0;
      assert b - a == {};
    }
  }

  /** `f` applied to each element. */
  function Map<S, T>(f: S -> T, s: seq<S>): (r: seq<T>)
    ensures |r| == |s| && forall i :: 0 <= i < |s| ==> r[i] == f(s[i])
  {
    if s == [] then [] else [f(s[0])] + Map(f, s[1..])
  }

  /** The lists `f` gives for each element, concatenated. */
  function FlatMap<S, T>(f: S -> seq<T>, s: seq<S>): seq<T> {
    if s == [] then [] else f(s[0]) + FlatMap(f, s[1..])
  }

  lemma {:induction false} FlatMapConcat<S, T>(f: S -> seq<T>, a: seq<S>, b: seq<S>)
    ensures FlatMap(f, a + b) == FlatMap(f, a) + FlatMap(f, b)
  {
    if a == [] {
      assert a + b == b;
    } else {
      assert (a + b)[1..] == a[1..] + b;
      FlatMapConcat(f, a[1..], b);
    }
  }

  /** One position's share of the flat-mapped output. */
  lemma FlatMapPull<S, T>(f: S -> seq<T>, b: seq<S>, i: nat)
    requires i < |b|
    ensures multiset(FlatMap(f, b)) == multiset(f(b[i])) + multiset(FlatMap(f, RemoveAt(b, i)))
  {
    assert b == b[..i] + b[i..];
    FlatMapConcat(f, b[..i], b[i..]);
    assert b[i..][1..] == b[i + 1..];
    FlatMapConcat(f, b[..i], b[i + 1..]);
  }

  lemma TailPermutes<S>(a: seq<S>, b: seq<S>, i: nat)
    requires multiset(a) == multiset(b) && a != [] && i < |b| && b[i] == a[0]
    ensures multiset(a[1..]) == multiset(RemoveAt(b, i))
  {
    assert a == [a[0]] + a[1..];
    assert multiset(a) == multiset(a[1..]) + multiset{a[0]};
    CancelSame(multiset(a[1..]), multiset(RemoveAt(b, i)), multiset{a[0]});
  }

  /** A permutation of the input permutes the flat-mapped output. */
  lemma {:induction false} FlatMapPermutes<S, T>(f: S -> seq<T>, a: seq<S>, b: seq<S>)
    requires multiset(a) == multiset(b)
    ensures multiset(FlatMap(f, a)) == multiset(FlatMap(f, b))
  {
    if a == [] {
      assert |multiset(b)| == 0;
      assert b == [];
    } else {
      assert a[0] in multiset(b);
      var i :| 0 <= i < |b| && b[i] == a[0];
      TailPermutes(a, b, i);
      FlatMapPermutes(f, a[1..], RemoveAt(b, i));
      FlatMapPull(f, b, i);
    }
  }

  lemma {:induction false} MapIsFlatMap<S, T>(f: S -> T, s: seq<S>)
    ensures Map(f, s) == FlatMap(x => [f(x)], s)
  {
    if s != [] {
      MapIsFlatMap(f, s[1..]);
    }
  }

  lemma MapPermutes<S, T>(f: S -> T, a: seq<S>, b: seq<S>)
    requires multiset(a) == multiset(b)
    ensures multiset(Map(f, a)) == multiset(Map(f, b))
  {
    MapIsFlatMap(f, a);
    MapIsFlatMap(f, b);
    FlatMapPermutes(x => [f(x)], a, b);
  }

  lemma PermutationSize<T>(a: seq<T>, b: seq<T>)
    requires multiset(a) == multiset(b)
    ensures |a| == |b|
    ensures Elements(a) == Elements(b)
  {
    assert |a| == |multiset(a)| == |multiset(b)| == |b|;
    forall x ensures x in a <==> x in b {
      assert x in a <==> x in multiset(a);
      assert x in b <==> x in multiset(b);
    }
  }

  /** One more element of a collection being walked, and the rest of it. */
  method Take<T>(s: set<T>) returns (x: T, rest: set<T>)
    requires s != {}
    ensures x in s && rest == s - {x}
  {
    x :| x in s;
    rest := s - {x};
  }

  // ------------------------------------------------------------------ what is kept of a list

  /** `out` is, in order, what `f` gives for the items for which it gives anything; `at` are their positions. */
  ghost predicate KeptAt<S, T>(f: S -> Option<T>, items: seq<S>, out: seq<T>, at: seq<nat>) {
    && |at| == |out|
    && (forall k, m :: 0 <= k < m < |at| ==> at[k] < at[m])
    && (forall k :: 0 <= k < |at| ==> at[k] < |items| && f(items[at[k]]) == Some(out[k]))
    && (forall i :: 0 <= i < |items| && f(items[i]).Some? ==> i in at)
  }

  lemma KeptNone<S, T>(f: S -> Option<T>, items: seq<S>, out: seq<T>, at: seq<nat>, x: S)
    requires KeptAt(f, items, out, at) && f(x).None?
    ensures KeptAt(f, items + [x], out, at)
  {
    var all := items + [x];
    assert all[|items|] == x && forall i :: 0 <= i < |items| ==> all[i] == items[i];
  }

  lemma KeptMore<S, T>(f: S -> Option<T>, items: seq<S>, out: seq<T>, at: seq<nat>, x: S)
    requires KeptAt(f, items, out, at) && f(x).Some?
    ensures KeptAt(f, items + [x], out + [f(x).value], at + [|items|])
  {
    var all, more := items + [x], at + [|items|];
    assert all[|items|] == x && forall i :: 0 <= i < |items| ==> all[i] == items[i];
    forall i | 0 <= i < |all| && f(all[i]).Some? ensures i in more {
      if i < |items| {
        assert i in at;
      } else {
        assert more[|at|] == i;
      }
    }
  }
}
