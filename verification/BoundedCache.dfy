/**
 The bounded caches of the loaders. A JavaScript `Map` iterates its keys in insertion
 order, and deleting a key before setting it again moves it to the end; the model keeps the
 entries as a list in that order.
 */
module BoundedCache {
  import opened Seqs

  datatype Entry<K, V> = Entry(key: K, value: V)

  predicate Has<K(==), V(==)>(entries: seq<Entry<K, V>>, key: K) {
    exists e :: e in entries && e.key == key
  }

  function Without<K(==), V(==)>(entries: seq<Entry<K, V>>, key: K): (r: seq<Entry<K, V>>)
    ensures forall e :: e in r ==> e in entries && e.key != key
    ensures forall e :: e in entries && e.key != key ==> e in r
    ensures |r| <= |entries|
    ensures !Has(entries, key) ==> r == entries
  {
    if entries == [] then []
    else if entries[0].key == key then Without(entries[1..], key)
    else [entries[0]] + Without(entries[1..], key)
  }

  /** `Map.get`. */
  function Get<K(==), V(==)>(entries: seq<Entry<K, V>>, key: K): (r: Option<V>)
    ensures r.Some? ==> Entry(key, r.value) in entries
    ensures r.Some? <==> Has(entries, key)
  {
    if entries == [] then None
    else if entries[0].key == key then Some(entries[0].value)
    else Get(entries[1..], key)
  }

  /** What one `rememberDayRows` / `rememberTracks` call does to the entries. */
  function Remember<K(==), V(==)>(entries: seq<Entry<K, V>>, max: nat, key: K, value: V): seq<Entry<K, V>>
    requires max > 0
  {
    (if Has(entries, key) then Without(entries, key)
     else if |entries| >= max then Without(entries, entries[0].key)
     else entries) + [Entry(key, value)]
  }

  function Replay<K(==), V(==)>(entries: seq<Entry<K, V>>, max: nat, writes: seq<Entry<K, V>>): seq<Entry<K, V>>
    requires max > 0
  {
    if writes == [] then entries
    else
      var w := writes[|writes| - 1];
      Remember(Replay(entries, max, writes[..|writes| - 1]), max, w.key, w.value)
  }

  /** Reference: the writes that no later write to the same key follows, in order. */
  function LastWrites<K(==), V(==)>(writes: seq<Entry<K, V>>): seq<Entry<K, V>> {
    if writes == [] then []
    else if Has(writes[1..], writes[0].key) then LastWrites(writes[1..])
    else [writes[0]] + LastWrites(writes[1..])
  }

  /** The last `min(max, |s|)` elements. */
  function Newest<T>(s: seq<T>, max: nat): seq<T> {
    if |s| <= max then s else s[|s| - max..]
  }

  predicate DistinctKeys<K(==), V(==)>(entries: seq<Entry<K, V>>) {
    entries == [] || (!Has(entries[1..], entries[0].key) && DistinctKeys(entries[1..]))
  }

  // ------------------------------------------------------------------ facts about Without

  /** In a list with distinct keys, deleting a key drops exactly its one position. */
  lemma {:induction false} WithoutDistinct<K, V>(s: seq<Entry<K, V>>, i: nat)
    requires DistinctKeys(s) && i < |s|
    ensures Without(s, s[i].key) == s[..i] + s[i + 1..]
  {
    if i > 0 {
      assert s[1..][i - 1] == s[i] && s[i] in s[1..];
      WithoutDistinct(s[1..], i - 1);
      assert s[..i] + s[i + 1..] == [s[0]] + (s[1..][..i - 1] + s[1..][i..]);
    }
  }

  lemma {:induction false} LastWritesKeys<K, V>(writes: seq<Entry<K, V>>)
    ensures DistinctKeys(LastWrites(writes))
    ensures forall e :: e in LastWrites(writes) ==> e in writes
  {
    if writes != [] {
      LastWritesKeys(writes[1..]);
    }
  }

  /** One more write supersedes the earlier write to its key and comes last. */
  lemma {:induction false} LastWritesSnoc<K, V>(writes: seq<Entry<K, V>>, e: Entry<K, V>)
    ensures LastWrites(writes + [e]) == Without(LastWrites(writes), e.key) + [e]
  {
    if writes == [] {
      assert writes + [e] == [e];
      assert [e][1..] == [];
    } else {
      var rest := writes[1..];
      assert (writes + [e])[1..] == rest + [e];
      LastWritesSnoc(rest, e);
      assert Has(rest + [e], writes[0].key) <==> Has(rest, writes[0].key) || e.key == writes[0].key;
    }
  }

  // ------------------------------------------------------------------ the cache is the newest writes

  lemma {:induction false} DistinctSuffix<K, V>(s: seq<Entry<K, V>>, n: nat)
    requires DistinctKeys(s) && n <= |s|
    ensures DistinctKeys(s[n..])
    ensures forall i :: 0 <= i < n ==> !Has(s[n..], s[i].key)
  {
    if n == 0 {
      assert s[0..] == s;
    } else {
      DistinctSuffix(s[1..], n - 1);
      assert s[1..][n - 1..] == s[n..];
      forall i | 0 <= i < n ensures !Has(s[n..], s[i].key) {
        if i == 0 {
          assert forall e :: e in s[n..] ==> e in s[1..];
        } else {
          assert s[i] == s[1..][i - 1];
        }
      }
    }
  }

  /** Dropping a position among the newest elements. */
  lemma NewestInside<T>(s: seq<T>, max: nat, n: nat, i: nat)
    requires max > 0 && n <= i < |s| && n == if |s| <= max then 0 else |s| - max
    ensures Newest(s[..i] + s[i + 1..], max - 1) == s[n..][..i - n] + s[n..][i - n + 1..]
  {
    var w := s[..i] + s[i + 1..];
    assert |w| == |s| - 1;
    assert w[n..] == s[n..][..i - n] + s[n..][i - n + 1..];
    assert Newest(w, max - 1) == w[n..];
  }

  /** Dropping a position older than all of them. */
  lemma NewestBefore<T>(s: seq<T>, max: nat, i: nat)
    requires max > 0 && i < |s| - max
    ensures Newest(s, max - 1) == Newest(s[..i] + s[i + 1..], max - 1)
  {
    var w := s[..i] + s[i + 1..];
    assert |w| == |s| - 1;
    assert w[|s| - max..] == s[|s| - max + 1..];
    assert Newest(w, max - 1) == w[|s| - max..];
  }

  lemma NewestSnoc<T>(s: seq<T>, max: nat, x: T)
    requires max > 0
    ensures Newest(s + [x], max) == Newest(s, max - 1) + [x]
  {
  }

  /** One write on a cache that holds the newest `max` of `all` (distinct keys, oldest first). */
  lemma NewestStep<K, V>(all: seq<Entry<K, V>>, max: nat, key: K, value: V)
    requires max > 0 && DistinctKeys(all)
    ensures Remember(Newest(all, max), max, key, value) == Newest(Without(all, key) + [Entry(key, value)], max)
  {
    var kept := Newest(all, max);
    var n := |all| - |kept|;
    assert kept == all[n..];
    NewestSnoc(Without(all, key), max, Entry(key, value));
    if Has(all, key) {
      var i :| 0 <= i < |all| && all[i].key == key;
      if i >= n {
        RewriteCached(all, max, n, i);
      } else {
        RewriteEvicted(all, max, i);
        DropOldest(all, max);
      }
    } else {
      assert !Has(kept, key);
      if |kept| >= max {
        DropOldest(all, max);
      }
    }
  }

  lemma DropOldest<K, V>(all: seq<Entry<K, V>>, max: nat)
    requires max > 0 && DistinctKeys(all) && |all| >= max
    ensures Without(Newest(all, max), Newest(all, max)[0].key) == Newest(all, max - 1)
  {
    var kept := Newest(all, max);
    DistinctSuffix(all, |all| - max);
    WithoutDistinct(kept, 0);
    assert kept[1..] == Newest(all, max - 1);
  }

  /** Rewriting a key that is still cached. */
  lemma RewriteCached<K, V>(all: seq<Entry<K, V>>, max: nat, n: nat, i: nat)
    requires max > 0 && DistinctKeys(all) && n <= i < |all|
    requires n == if |all| <= max then 0 else |all| - max
    ensures Has(all[n..], all[i].key)
    ensures Without(all[n..], all[i].key) == Newest(Without(all, all[i].key), max - 1)
  {
    var kept := all[n..];
    assert kept[i - n] == all[i];
    DistinctSuffix(all, n);
    WithoutDistinct(kept, i - n);
    WithoutDistinct(all, i);
    NewestInside(all, max, n, i);
  }

  /** Rewriting a key that was evicted. */
  lemma RewriteEvicted<K, V>(all: seq<Entry<K, V>>, max: nat, i: nat)
    requires max > 0 && DistinctKeys(all) && i < |all| - max
    ensures !Has(all[|all| - max..], all[i].key)
    ensures Newest(all, max - 1) == Newest(Without(all, all[i].key), max - 1)
  {
    DistinctSuffix(all, |all| - max);
    WithoutDistinct(all, i);
    NewestBefore(all, max, i);
  }

  /**
   After any sequence of writes the cache holds exactly the last min(max, n) distinct keys by
   last write, in that order, each with its newest value.
   */
  lemma {:induction false} CacheHoldsNewest<K, V>(max: nat, writes: seq<Entry<K, V>>)
    requires max > 0
    ensures Replay([], max, writes) == Newest(LastWrites(writes), max)
  {
    if writes != [] {
      var init, w := writes[..|writes| - 1], writes[|writes| - 1];
      CacheHoldsNewest(max, init);
      assert writes == init + [w];
      CacheStep(max, init, w);
    }
  }

  lemma {:induction false} ReplayConcat<K, V>(entries: seq<Entry<K, V>>, max: nat, a: seq<Entry<K, V>>, b: seq<Entry<K, V>>)
    requires max > 0
    ensures Replay(entries, max, a + b) == Replay(Replay(entries, max, a), max, b)
  {
    if b == [] {
      assert a + b == a;
    } else {
      assert (a + b)[..|a + b| - 1] == a + b[..|b| - 1];
      ReplayConcat(entries, max, a, b[..|b| - 1]);
    }
  }

  lemma CacheStep<K, V>(max: nat, writes: seq<Entry<K, V>>, w: Entry<K, V>)
    requires max > 0
    ensures Remember(Newest(LastWrites(writes), max), max, w.key, w.value) == Newest(LastWrites(writes + [w]), max)
  {
    LastWritesKeys(writes);
    NewestStep(LastWrites(writes), max, w.key, w.value);
    LastWritesSnoc(writes, w);
  }

  /** Every entry carries what the source answers for its key. */
  ghost predicate Faithful<K(!new), V(!new)>(entries: seq<Entry<K, V>>, source: K -> Option<V>) {
    forall i :: 0 <= i < |entries| ==> source(entries[i].key) == Some(entries[i].value)
  }

  lemma {:induction false} WithoutFaithful<K(!new), V(!new)>(entries: seq<Entry<K, V>>, key: K, source: K -> Option<V>)
    requires Faithful(entries, source)
    ensures Faithful(Without(entries, key), source)
  {
    if entries != [] {
      WithoutFaithful(entries[1..], key, source);
    }
  }

  /** Writing what the source answers, with whatever eviction follows, keeps the cache faithful. */
  lemma RememberFaithful<K(!new), V(!new)>(
    entries: seq<Entry<K, V>>, max: nat, key: K, value: V, source: K -> Option<V>)
    requires max > 0 && Faithful(entries, source) && source(key) == Some(value)
    ensures Faithful(Remember(entries, max, key, value), source)
  {
    WithoutFaithful(entries, key, source);
    if |entries| > 0 {
      WithoutFaithful(entries, entries[0].key, source);
    }
  }

  /** After a write the key answers with the value written, and it is the youngest entry. */
  lemma GetAfterRemember<K, V>(entries: seq<Entry<K, V>>, max: nat, key: K, value: V)
    requires max > 0
    ensures Get(Remember(entries, max, key, value), key) == Some(value)
  {
    var base := if Has(entries, key) then Without(entries, key)
                else if |entries| >= max then Without(entries, entries[0].key)
                else entries;
    GetSnoc(base, Entry(key, value));
  }

  lemma {:induction false} GetSnoc<K, V>(s: seq<Entry<K, V>>, e: Entry<K, V>)
    requires !Has(s, e.key)
    ensures Get(s + [e], e.key) == Some(e.value)
  {
    if s == [] {
      assert s + [e] == [e];
    } else {
      assert (s + [e])[1..] == s[1..] + [e];
      GetSnoc(s[1..], e);
    }
  }

  /** Among distinct keys an entry's key answers with its value. */
  lemma {:induction false} OneValue<K, V>(s: seq<Entry<K, V>>, e: Entry<K, V>)
    requires DistinctKeys(s) && e in s
    ensures Get(s, e.key) == Some(e.value)
  {
    if s[0] != e {
      OneValue(s[1..], e);
    }
  }

  // ------------------------------------------------------------------ the cache object

  /** The body `rememberDayRows` and `rememberTracks` share: rewrite the key last, or evict the oldest. */
  method Write<K(==), V(==)>(entries: seq<Entry<K, V>>, max: nat, key: K, value: V) returns (now: seq<Entry<K, V>>)
    requires max > 0
    ensures now == Remember(entries, max, key, value)
    ensures Get(now, key) == Some(value)
  {
    now := entries;
    if Has(now, key) {
      now := Without(now, key);
    } else if |now| >= max {
      now := Without(now, now[0].key);
    }
    now := now + [Entry(key, value)];
    GetAfterRemember(entries, max, key, value);
  }

  /** `trackPointCache` or `dayRowCache` together with its `remember` function. */
  class Cache<K(==), V(==)> {
    const max: nat
    var entries: seq<Entry<K, V>>
    ghost var writes: seq<Entry<K, V>>

    ghost predicate Valid()
      reads this
    {
      max > 0 && entries == Newest(LastWrites(writes), max)
    }

    constructor (max: nat)
      requires max > 0
      ensures Valid() && this.max == max && entries == [] && writes == []
    {
      this.max := max;
      entries, writes := [], [];
    }

    method Lookup(key: K) returns (r: Option<V>)
      requires Valid()
      ensures forall e :: e in Newest(LastWrites(writes), max) && e.key == key ==> r == Some(e.value)
      ensures r.Some? ==> Entry(key, r.value) in Newest(LastWrites(writes), max)
    {
      r := Get(entries, key);
      LastWritesKeys(writes);
      DistinctSuffix(LastWrites(writes), |LastWrites(writes)| - |entries|);
      forall e | e in entries && e.key == key ensures r == Some(e.value) {
        OneValue(entries, e);
      }
    }

    method RememberEntry(key: K, value: V)
      requires Valid()
      modifies this
      ensures Valid() && writes == old(writes) + [Entry(key, value)]
      ensures entries == Remember(old(entries), max, key, value)
    {
      CacheStep(max, writes, Entry(key, value));
      entries := Write(entries, max, key, value);
      writes := writes + [Entry(key, value)];
    }
  }
}
