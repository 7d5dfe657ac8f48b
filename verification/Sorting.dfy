/** `Array.prototype.sort` with a comparison: a stable sort, and when its result is canonical. */
module Sorting {
  import opened Seqs

  function Insert<T>(le: (T, T) -> bool, x: T, s: seq<T>): seq<T> {
    if s == [] || le(x, s[0]) then [x] + s else [s[0]] + Insert(le, x, s[1..])
  }

  function Sort<T>(le: (T, T) -> bool, s: seq<T>): seq<T> {
    if s == [] then [] else Insert(le, s[0], Sort(le, s[1..]))
  }

  /** A total order up to ties on the elements of `d`. */
  ghost predicate Orders<T>(le: (T, T) -> bool, d: set<T>) {
    && (forall x, y :: x in d && y in d ==> le(x, y) || le(y, x))
    && (forall x, y, z :: x in d && y in d && z in d && le(x, y) && le(y, z) ==> le(x, z))
  }

  /** No two different elements of `d` tie. */
  ghost predicate Antisymmetric<T>(le: (T, T) -> bool, d: set<T>) {
    forall x, y :: x in d && y in d && le(x, y) && le(y, x) ==> x == y
  }

  ghost predicate Within<T>(s: seq<T>, d: set<T>) {
    forall i :: 0 <= i < |s| ==> s[i] in d
  }

  ghost predicate Below<T>(le: (T, T) -> bool, x: T, s: seq<T>) {
    forall i :: 0 <= i < |s| ==> le(x, s[i])
  }

  /** Each element is below everything after it. */
  ghost predicate Sorted<T>(le: (T, T) -> bool, s: seq<T>) {
    s == [] || (Below(le, s[0], s[1..]) && Sorted(le, s[1..]))
  }

  lemma {:induction false} InsertKeeps<T>(le: (T, T) -> bool, x: T, s: seq<T>)
    ensures multiset(Insert(le, x, s)) == multiset(s) + multiset{x}
  {
    if s != [] && !le(x, s[0]) {
      InsertKeeps(le, x, s[1..]);
      assert s == [s[0]] + s[1..];
    }
  }

  lemma {:induction false} InsertWithin<T>(le: (T, T) -> bool, x: T, s: seq<T>, d: set<T>)
    requires Within(s, d) && x in d
    ensures Within(Insert(le, x, s), d)
  {
    if s != [] && !le(x, s[0]) {
      InsertWithin(le, x, s[1..], d);
    }
  }

  lemma {:induction false} InsertBelow<T>(le: (T, T) -> bool, y: T, x: T, s: seq<T>)
    requires Below(le, y, s) && le(y, x)
    ensures Below(le, y, Insert(le, x, s))
  {
    if s != [] && !le(x, s[0]) {
      assert Below(le, y, s[1..]);
      InsertBelow(le, y, x, s[1..]);
    }
  }

  lemma BelowAll<T>(le: (T, T) -> bool, x: T, s: seq<T>, d: set<T>)
    requires Orders(le, d) && Within(s, d) && x in d && s != [] && le(x, s[0]) && Below(le, s[0], s[1..])
    ensures Below(le, x, s)
  {
    forall i | 0 < i < |s| ensures le(x, s[i]) {
      assert s[i] == s[1..][i - 1];
    }
  }

  lemma {:induction false} InsertSorted<T>(le: (T, T) -> bool, x: T, s: seq<T>, d: set<T>)
    requires Orders(le, d) && Within(s, d) && x in d && Sorted(le, s)
    ensures Sorted(le, Insert(le, x, s))
  {
    if s == [] {
      assert [x][1..] == [];
    } else if le(x, s[0]) {
      assert ([x] + s)[1..] == s;
      BelowAll(le, x, s, d);
    } else {
      assert Within(s[1..], d);
      InsertSorted(le, x, s[1..], d);
      assert le(s[0], x);
      InsertBelow(le, s[0], x, s[1..]);
      assert Insert(le, x, s)[1..] == Insert(le, x, s[1..]);
    }
  }

  lemma {:induction false} SortKeeps<T>(le: (T, T) -> bool, s: seq<T>)
    ensures multiset(Sort(le, s)) == multiset(s)
  {
    if s != [] {
      SortKeeps(le, s[1..]);
      InsertKeeps(le, s[0], Sort(le, s[1..]));
      assert s == [s[0]] + s[1..];
    }
  }

  lemma {:induction false} SortSorts<T>(le: (T, T) -> bool, s: seq<T>, d: set<T>)
    requires Orders(le, d) && Within(s, d)
    ensures Sorted(le, Sort(le, s)) && Within(Sort(le, s), d)
  {
    if s != [] {
      SortSorts(le, s[1..], d);
      InsertWithin(le, s[0], Sort(le, s[1..]), d);
      InsertSorted(le, s[0], Sort(le, s[1..]), d);
    }
  }

  lemma SortedHead<T>(le: (T, T) -> bool, s: seq<T>, x: T, d: set<T>)
    requires Sorted(le, s) && Orders(le, d) && Within(s, d) && x in s
    ensures le(s[0], x)
  {
    var i :| 0 <= i < |s| && s[i] == x;
    assert i > 0 ==> s[1..][i - 1] == x;
  }

  /** Sorted lists with the same elements are the same list. */
  lemma {:induction false} SortedUnique<T>(le: (T, T) -> bool, a: seq<T>, b: seq<T>, d: set<T>)
    requires Sorted(le, a) && Sorted(le, b) && multiset(a) == multiset(b)
    requires Orders(le, d) && Antisymmetric(le, d) && Within(a, d) && Within(b, d)
    ensures a == b
  {
    PermutationSize(a, b);
    if a != [] {
      assert a[0] in Elements(b) && b[0] in Elements(a);
      SortedHead(le, b, a[0], d);
      SortedHead(le, a, b[0], d);
      assert a[0] == b[0];
      TailPermutes(a, b, 0);
      assert RemoveAt(b, 0) == b[1..];
      SortedUnique(le, a[1..], b[1..], d);
      assert a == [a[0]] + a[1..] && b == [b[0]] + b[1..];
    }
  }

  /** When no two different elements tie, the input order does not matter. */
  lemma SortCanonical<T>(le: (T, T) -> bool, a: seq<T>, b: seq<T>)
    requires multiset(a) == multiset(b) && Orders(le, Elements(a)) && Antisymmetric(le, Elements(a))
    ensures Sort(le, a) == Sort(le, b)
  {
    var d := Elements(a);
    PermutationSize(a, b);
    assert forall i :: 0 <= i < |b| ==> b[i] in Elements(b);
    SortSorts(le, a, d);
    SortSorts(le, b, d);
    SortKeeps(le, a);
    SortKeeps(le, b);
    SortedUnique(le, Sort(le, a), Sort(le, b), d);
  }

  // ------------------------------------------------------------------ sorting by a number

  /** `(a, b) => f(a) - f(b)`. */
  function By<T>(f: T -> int): (T, T) -> bool {
    (a: T, b: T) => f(a) <= f(b)
  }

  /** The elements `f` maps to `t`, in order. */
  function At<T>(f: T -> int, s: seq<T>, t: int): seq<T> {
    if s == [] then [] else (if f(s[0]) == t then [s[0]] else []) + At(f, s[1..], t)
  }

  /** The first of them. */
  function FirstAt<T>(f: T -> int, s: seq<T>, t: int): Option<T> {
    if At(f, s, t) == [] then None else Some(At(f, s, t)[0])
  }

  lemma AtCons<T>(f: T -> int, x: T, s: seq<T>, t: int)
    ensures At(f, [x] + s, t) == (if f(x) == t then [x] else []) + At(f, s, t)
  {
    assert ([x] + s)[1..] == s;
  }

  lemma {:induction false} AtConcat<T>(f: T -> int, a: seq<T>, b: seq<T>, t: int)
    ensures At(f, a + b, t) == At(f, a, t) + At(f, b, t)
  {
    if a == [] {
      assert a + b == b;
    } else {
      assert (a + b)[1..] == a[1..] + b;
      AtConcat(f, a[1..], b, t);
      ConcatAssoc(if f(a[0]) == t then [a[0]] else [], At(f, a[1..], t), At(f, b, t));
    }
  }

  lemma {:induction false} InsertAt<T>(f: T -> int, x: T, s: seq<T>, t: int)
    ensures At(f, Insert(By(f), x, s), t) == (if f(x) == t then [x] else []) + At(f, s, t)
  {
    if s == [] || By(f)(x, s[0]) {
      AtCons(f, x, s, t);
    } else {
      InsertAt(f, x, s[1..], t);
      AtCons(f, s[0], Insert(By(f), x, s[1..]), t);
    }
  }

  /** The sort is stable: elements that tie keep the order of the input. */
  lemma {:induction false} SortAt<T>(f: T -> int, s: seq<T>, t: int)
    ensures At(f, Sort(By(f), s), t) == At(f, s, t)
  {
    if s != [] {
      SortAt(f, s[1..], t);
      InsertAt(f, s[0], Sort(By(f), s[1..]), t);
    }
  }

  lemma SortFirstAt<T>(f: T -> int, s: seq<T>, t: int)
    ensures FirstAt(f, Sort(By(f), s), t) == FirstAt(f, s, t)
  {
    SortAt(f, s, t);
  }

  lemma {:induction false} AtElements<T>(f: T -> int, s: seq<T>, t: int)
    ensures forall i :: 0 <= i < |At(f, s, t)| ==> At(f, s, t)[i] in s && f(At(f, s, t)[i]) == t
  {
    if s != [] {
      AtElements(f, s[1..], t);
    }
  }

  lemma HeadBelow<T>(f: T -> int, a: seq<T>, b: seq<T>)
    requires Ascending(f, b) && a != [] && At(f, a, f(a[0])) == At(f, b, f(a[0]))
    ensures b != [] && f(b[0]) <= f(a[0])
  {
    var t := f(a[0]);
    assert At(f, b, t)[0] == a[0];
    AtElements(f, b, t);
    var i :| 0 <= i < |b| && b[i] == At(f, b, t)[0];
  }

  ghost predicate SameAt<T>(f: T -> int, a: seq<T>, b: seq<T>) {
    forall t :: At(f, a, t) == At(f, b, t)
  }

  lemma AtTail<T>(f: T -> int, s: seq<T>, t: int)
    requires s != []
    ensures At(f, s[1..], t) == if f(s[0]) == t then At(f, s, t)[1..] else At(f, s, t)
  {
  }

  lemma TailSameAt<T>(f: T -> int, a: seq<T>, b: seq<T>)
    requires a != [] && b != [] && f(a[0]) == f(b[0]) && SameAt(f, a, b)
    ensures a[0] == b[0] && SameAt(f, a[1..], b[1..])
  {
    var t0 := f(a[0]);
    assert At(f, a, t0)[0] == a[0] && At(f, b, t0)[0] == b[0];
    forall t ensures At(f, a[1..], t) == At(f, b[1..], t) {
      assert At(f, a, t) == At(f, b, t);
      AtTail(f, a, t);
      AtTail(f, b, t);
    }
  }

  /** Lists in order are equal when they are equal at every number. */
  lemma {:induction false} AscendingSameAt<T>(f: T -> int, a: seq<T>, b: seq<T>)
    requires Ascending(f, a) && Ascending(f, b) && SameAt(f, a, b)
    ensures a == b
  {
    if a != [] {
      HeadBelow(f, a, b);
      HeadBelow(f, b, a);
      TailSameAt(f, a, b);
      AscendingSameAt(f, a[1..], b[1..]);
      assert a == [a[0]] + a[1..] && b == [b[0]] + b[1..];
    } else if b != [] {
      HeadBelow(f, b, a);
    }
  }

  /** Sorting by a number gives one result for every input order, if the number tells elements apart. */
  lemma SortByCanonical<T>(f: T -> int, a: seq<T>, b: seq<T>)
    requires multiset(a) == multiset(b) && forall x, y :: x in a && y in a && f(x) == f(y) ==> x == y
    ensures Sort(By(f), a) == Sort(By(f), b)
  {
    assert forall x :: x in Elements(a) <==> x in a;
    SortCanonical(By(f), a, b);
  }

  /** The result is in the order of the number. */
  ghost predicate Ascending<T>(f: T -> int, s: seq<T>) {
    forall i, j :: 0 <= i < j < |s| ==> f(s[i]) <= f(s[j])
  }

  lemma {:induction false} SortedAscending<T>(f: T -> int, s: seq<T>)
    requires Sorted(By(f), s)
    ensures Ascending(f, s)
  {
    if s != [] {
      SortedAscending(f, s[1..]);
      forall i, j | 0 <= i < j < |s| ensures f(s[i]) <= f(s[j]) {
        assert s[j] == s[1..][j - 1];
        if i > 0 {
          assert s[i] == s[1..][i - 1];
        } else {
          assert By(f)(s[0], s[1..][j - 1]);
        }
      }
    }
  }

  lemma SortAscending<T>(f: T -> int, s: seq<T>)
    ensures Ascending(f, Sort(By(f), s))
  {
    assert Orders(By(f), Elements(s));
    SortSorts(By(f), s, Elements(s));
    SortedAscending(f, Sort(By(f), s));
  }
}
