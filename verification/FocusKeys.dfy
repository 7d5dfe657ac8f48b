/**
 What the token of the live map says when the fit key changes: the fit key can be read off it unless
 one key continues the other with the texts of rows.
 */
module FocusKeys {
  import opened Seqs
  import opened Sorting
  import opened LiveMarkers
  import opened FocusToken

  // ------------------------------------------------------------------ fit keys without place texts

  /** A text that a located row could have contributed. */
  ghost predicate PlaceLike(piece: string) {
    exists p: Place :: Plain(p) && piece == PlaceText(p)
  }

  /** No stretch of the fit key reads as a place. */
  ghost predicate CleanKey(fitKey: string) {
    forall i :: 0 <= i < |Pieces(fitKey)| ==> !PlaceLike(Pieces(fitKey)[i])
  }

  /** The pieces that do not read as places, in order. */
  ghost function OtherPieces(pieces: seq<string>): seq<string> {
    if pieces == [] then []
    else (if PlaceLike(pieces[0]) then [] else [pieces[0]]) + OtherPieces(pieces[1..])
  }

  lemma {:induction false} OtherConcat(a: seq<string>, b: seq<string>)
    ensures OtherPieces(a + b) == OtherPieces(a) + OtherPieces(b)
  {
    if a == [] {
      assert a + b == b;
    } else {
      assert (a + b)[1..] == a[1..] + b;
      OtherConcat(a[1..], b);
    }
  }

  lemma {:induction false} OtherAll(pieces: seq<string>)
    requires forall i :: 0 <= i < |pieces| ==> !PlaceLike(pieces[i])
    ensures OtherPieces(pieces) == pieces
  {
    if pieces != [] {
      OtherAll(pieces[1..]);
      assert pieces == [pieces[0]] + pieces[1..];
    }
  }

  /** A piece a row contributed: it reads as a place and holds no bar. */
  ghost predicate RowText(part: string) {
    PlaceLike(part) && '|' !in part
  }

  lemma KeyIsNoRowText(fitKey: string)
    requires CleanKey(fitKey)
    ensures !RowText(fitKey)
  {
    if '|' !in fitKey {
      PiecesUnbroken(fitKey);
      assert Pieces(fitKey)[0] == fitKey;
    }
  }

  /** Among row texts, only the fit key leaves other pieces. */
  lemma {:induction false} OtherOfParts(fitKey: string, parts: seq<string>)
    requires CleanKey(fitKey) && forall i :: 0 <= i < |parts| ==> parts[i] == fitKey || RowText(parts[i])
    requires multiset(parts)[fitKey] <= 1
    ensures OtherPieces(FlatMap(Pieces, parts)) == if multiset(parts)[fitKey] == 1 then Pieces(fitKey) else []
  {
    if parts != [] {
      var rest := parts[1..];
      CountFirst(parts, fitKey);
      OtherOfParts(fitKey, rest);
      OtherConcat(Pieces(parts[0]), FlatMap(Pieces, rest));
      KeyIsNoRowText(fitKey);
      if parts[0] == fitKey {
        OtherAll(Pieces(fitKey));
      } else {
        PiecesUnbroken(parts[0]);
        assert OtherPieces([parts[0]]) == OtherPieces([]);
      }
    }
  }

  lemma NotAmong(parts: seq<string>, x: string)
    requires forall i :: 0 <= i < |parts| ==> parts[i] != x
    ensures multiset(parts)[x] == 0
  {
    assert x !in parts;
  }

  ghost predicate AllRowTexts(texts: seq<string>) {
    forall i :: 0 <= i < |texts| ==> RowText(texts[i])
  }

  lemma RowTexts(fix: Fixed, rows: seq<StatusRow>)
    requires PlainText(fix)
    ensures AllRowTexts(Map(PlaceText, Places(fix, rows)))
  {
    PlacesPlain(fix, rows);
    var texts := Map(PlaceText, Places(fix, rows));
    forall i | 0 <= i < |texts| ensures RowText(texts[i]) {
      PlaceTextUnbroken(Places(fix, rows)[i]);
    }
  }

  lemma KeyOnce(fitKey: string, texts: seq<string>, sorted: seq<string>)
    requires CleanKey(fitKey) && AllRowTexts(texts)
    requires multiset(sorted) == multiset([fitKey] + texts)
    ensures multiset(sorted)[fitKey] == 1 && sorted != []
    ensures forall i :: 0 <= i < |sorted| ==> sorted[i] == fitKey || RowText(sorted[i])
  {
    KeyIsNoRowText(fitKey);
    NotAmong(texts, fitKey);
    CountCons(fitKey, texts, fitKey);
    PermutationSize(sorted, [fitKey] + texts);
    assert |sorted| == 1 + |texts|;
    forall i | 0 <= i < |sorted| ensures sorted[i] == fitKey || RowText(sorted[i]) {
      assert sorted[i] in Elements([fitKey] + texts);
    }
  }

  lemma SortedKeeps(fitKey: string, texts: seq<string>)
    ensures multiset(Sort(LE, [fitKey] + texts)) == multiset([fitKey] + texts)
  {
    SortKeeps(LE, [fitKey] + texts);
  }

  /** The fit key can be read off the token. */
  lemma TokenShowsKey(fix: Fixed, fitKey: string, rows: seq<StatusRow>)
    requires PlainText(fix) && CleanKey(fitKey)
    ensures OtherPieces(Pieces(Token(fix, fitKey, rows))) == Pieces(fitKey)
  {
    var texts := Map(PlaceText, Places(fix, rows));
    var sorted := Sort(LE, [fitKey] + texts);
    SortedKeeps(fitKey, texts);
    RowTexts(fix, rows);
    KeyOnce(fitKey, texts, sorted);
    PiecesOfJoin(sorted);
    OtherOfParts(fitKey, sorted);
  }

  lemma JoinGrow(c: char, p: seq<string>)
    requires p != []
    ensures Join(Grow(c, p)) == [c] + Join(p)
  {
    if c == '|' {
      assert ([""] + p)[1..] == p;
    } else if |p| > 1 {
      assert ([[c] + p[0]] + p[1..])[1..] == p[1..];
      assert [c] + (p[0] + "|" + Join(p[1..])) == ([c] + p[0]) + "|" + Join(p[1..]);
    }
  }

  lemma {:induction false} JoinOfPieces(s: string)
    ensures Join(Pieces(s)) == s
  {
    if s != "" {
      JoinOfPieces(s[1..]);
      JoinGrow(s[0], Pieces(s[1..]));
      assert s == [s[0]] + s[1..];
    }
  }

  /**
   Two updates whose fit keys hold no place text have the same token exactly when they show the same
   view: the same fit key, and the same rows at the same rounded positions.
   */
  lemma TokenTellsView(fix: Fixed, fitKey: string, rows: seq<StatusRow>, fitKey': string, rows': seq<StatusRow>)
    requires PlainText(fix) && CleanKey(fitKey) && CleanKey(fitKey')
    ensures Token(fix, fitKey, rows) == Token(fix, fitKey', rows')
      <==> fitKey == fitKey' && multiset(Places(fix, rows)) == multiset(Places(fix, rows'))
  {
    if fitKey == fitKey' {
      TokenTellsPlaces(fix, fitKey, rows, rows');
    } else {
      TokenShowsKey(fix, fitKey, rows);
      TokenShowsKey(fix, fitKey', rows');
      JoinOfPieces(fitKey);
      JoinOfPieces(fitKey');
    }
  }

  /** Every place text has a colon, so a fit key without one is clean. */
  lemma ColonlessKeyIsClean(fitKey: string)
    requires ':' !in fitKey
    ensures CleanKey(fitKey)
  {
    forall i | 0 <= i < |Pieces(fitKey)| ensures !PlaceLike(Pieces(fitKey)[i]) {
      PieceChars(fitKey, i, ':');
      forall p: Place ensures ':' in PlaceText(p) {
        assert PlaceText(p)[|IdText(p.id)|] == ':';
      }
    }
  }

  lemma {:induction false} PieceChars(s: string, i: nat, c: char)
    requires i < |Pieces(s)| && c !in s
    ensures c !in Pieces(s)[i]
  {
    if s != "" {
      if s[0] == '|' {
        if i > 0 {
          PieceChars(s[1..], i - 1, c);
        }
      } else {
        PieceChars(s[1..], i, c);
      }
    }
  }

  // ------------------------------------------------------------------ where the key is sorted

  /** The texts of the located rows. */
  function Texts(fix: Fixed, rows: seq<StatusRow>): seq<string> {
    Map(PlaceText, Places(fix, rows))
  }

  /** How many of the sorted texts come before the key. */
  function Rank(k: string, s: seq<string>): (n: nat)
    ensures n <= |s|
  {
    if s == [] || LE(k, s[0]) then 0 else 1 + Rank(k, s[1..])
  }

  lemma {:induction false} InsertAtRank(k: string, s: seq<string>)
    ensures Insert(LE, k, s) == s[..Rank(k, s)] + [k] + s[Rank(k, s)..]
  {
    if s != [] && !LE(k, s[0]) {
      InsertAtRank(k, s[1..]);
      assert s[..Rank(k, s)] == [s[0]] + s[1..][..Rank(k, s[1..])];
      assert s[Rank(k, s)..] == s[1..][Rank(k, s[1..])..];
    }
  }

  lemma {:induction false} RankSplits(k: string, s: seq<string>)
    ensures forall i :: 0 <= i < Rank(k, s) ==> !LE(k, s[i])
    ensures Rank(k, s) < |s| ==> LE(k, s[Rank(k, s)])
  {
    if s != [] && !LE(k, s[0]) {
      RankSplits(k, s[1..]);
      forall i | 0 <= i < Rank(k, s) ensures !LE(k, s[i]) {
        if i > 0 {
          assert s[i] == s[1..][i - 1];
        }
      }
    }
  }

  lemma {:induction false} RankIs(k: string, s: seq<string>, n: nat)
    requires n <= |s| && (forall i :: 0 <= i < n ==> !LE(k, s[i])) && (n < |s| ==> LE(k, s[n]))
    ensures Rank(k, s) == n
  {
    if n > 0 {
      assert !LE(k, s[0]);
      forall i | 0 <= i < n - 1 ensures !LE(k, s[1..][i]) {
        assert s[1..][i] == s[i + 1];
      }
      RankIs(k, s[1..], n - 1);
    }
  }

  /** Every text is below every later one. */
  ghost predicate InOrder(s: seq<string>) {
    forall i, j :: 0 <= i < j < |s| ==> LE(s[i], s[j])
  }

  lemma {:induction false} SortedInOrder(s: seq<string>)
    ensures Sorted(LE, s) <==> InOrder(s)
  {
    if s != [] {
      SortedInOrder(s[1..]);
      if Sorted(LE, s) {
        forall i, j | 0 <= i < j < |s| ensures LE(s[i], s[j]) {
          assert s[j] == s[1..][j - 1];
          assert i > 0 ==> s[i] == s[1..][i - 1];
        }
      }
      if InOrder(s) {
        forall j | 0 <= j < |s[1..]| ensures LE(s[0], s[1..][j]) {
          assert s[1..][j] == s[j + 1];
        }
        forall i, j | 0 <= i < j < |s[1..]| ensures LE(s[1..][i], s[1..][j]) {
          assert s[1..][i] == s[i + 1] && s[1..][j] == s[j + 1];
        }
      }
    }
  }

  /** The sorted texts are in order, and sorting is the only way to put them in order. */
  lemma SortedTexts(texts: seq<string>)
    ensures InOrder(Sort(LE, texts)) && multiset(Sort(LE, texts)) == multiset(texts)
  {
    var d := Elements(texts);
    LEOrders(d);
    SortSorts(LE, texts, d);
    SortKeeps(LE, texts);
    SortedInOrder(Sort(LE, texts));
  }

  lemma OnlyOrder(texts: seq<string>, s: seq<string>)
    requires InOrder(s) && multiset(s) == multiset(texts)
    ensures Sort(LE, texts) == s
  {
    var d := Elements(texts) + Elements(s);
    LEOrders(d);
    SortedTexts(texts);
    SortedInOrder(s);
    SortedInOrder(Sort(LE, texts));
    PermutationSize(Sort(LE, texts), texts);
    var sorted := Sort(LE, texts);
    assert forall i :: 0 <= i < |sorted| ==> sorted[i] in Elements(sorted);
    SortedUnique(LE, sorted, s, d);
  }

  /** The pieces of a token: texts below the key, the key's own pieces, texts above it. */
  lemma PiecesOfToken(fix: Fixed, k: string, rows: seq<StatusRow>)
    requires PlainText(fix)
    ensures var s := Sort(LE, Texts(fix, rows)); var n := Rank(k, s);
      Pieces(Token(fix, k, rows)) == s[..n] + Pieces(k) + s[n..]
  {
    var s := Sort(LE, Texts(fix, rows));
    SortCons(k, Texts(fix, rows));
    InsertAtRank(k, s);
    SortedRowTexts(fix, rows);
    PiecesAround(k, s, Rank(k, s));
  }

  lemma SortCons(k: string, texts: seq<string>)
    ensures Sort(LE, [k] + texts) == Insert(LE, k, Sort(LE, texts))
  {
    assert ([k] + texts)[1..] == texts;
  }

  lemma PiecesAround(k: string, s: seq<string>, n: nat)
    requires AllRowTexts(s) && n <= |s|
    ensures Pieces(Join(s[..n] + [k] + s[n..])) == s[..n] + Pieces(k) + s[n..]
  {
    PiecesOfJoin(s[..n] + [k] + s[n..]);
    UnbrokenPieces(s[..n]);
    UnbrokenPieces(s[n..]);
    FlatMapAround(Pieces, s[..n], k, s[n..]);
  }

  lemma FlatMapAround<S, T>(f: S -> seq<T>, a: seq<S>, x: S, b: seq<S>)
    ensures FlatMap(f, a + [x] + b) == FlatMap(f, a) + f(x) + FlatMap(f, b)
  {
    FlatMapConcat(f, a + [x], b);
    FlatMapConcat(f, a, [x]);
    assert FlatMap(f, [x]) == f(x) + FlatMap(f, []);
  }

  lemma SortedRowTexts(fix: Fixed, rows: seq<StatusRow>)
    requires PlainText(fix)
    ensures AllRowTexts(Sort(LE, Texts(fix, rows)))
  {
    RowTexts(fix, rows);
    SortedTexts(Texts(fix, rows));
    var s, texts := Sort(LE, Texts(fix, rows)), Texts(fix, rows);
    PermutationSize(s, texts);
    forall i | 0 <= i < |s| ensures RowText(s[i]) {
      assert s[i] in Elements(s);
      assert s[i] in texts;
    }
  }

  // ------------------------------------------------------------------ keys that begin with no place text

  /** A key with a bar whose first piece is no place text: every key the pages build. */
  ghost predicate Framed(k: string) {
    '|' in k && !PlaceLike(Pieces(k)[0])
  }

  /** What `k'` adds to `k`, piece by piece. */
  function Added(k: string, k': string): seq<string>
    requires Pieces(k) <= Pieces(k')
  {
    Pieces(k')[|Pieces(k)|..]
  }

  /** The key `k'` continues `k` with texts in order, all sorted after `k`. */
  ghost predicate Continues(k: string, k': string) {
    && Pieces(k) <= Pieces(k') && Added(k, k') != [] && InOrder(Added(k, k'))
    && forall i :: 0 <= i < |Added(k, k')| ==> LE(k, Added(k, k')[i])
  }

  /**
   The longer key `k'` names rows that stand under `k`: besides these the two views show the same rows,
   and those of them that are sorted after `k` come after the named ones.
   */
  ghost predicate Hides(fix: Fixed, k: string, rows: seq<StatusRow>, k': string, rows': seq<StatusRow>) {
    && Continues(k, k')
    && multiset(Texts(fix, rows)) == multiset(Added(k, k')) + multiset(Texts(fix, rows'))
    && forall t, u :: t in Added(k, k') && u in Texts(fix, rows') && LE(k, u) ==> LE(t, u)
  }

  lemma {:induction false} JoinConcat(a: seq<string>, b: seq<string>)
    requires a != [] && b != []
    ensures Join(a + b) == Join(a) + "|" + Join(b)
  {
    if |a| == 1 {
      assert (a + b)[1..] == b;
    } else {
      assert (a + b)[1..] == a[1..] + b;
      JoinConcat(a[1..], b);
      assert a[0] + "|" + (Join(a[1..]) + "|" + Join(b)) == (a[0] + "|" + Join(a[1..])) + "|" + Join(b);
    }
  }

  /** The longer key really is the shorter one, a bar, and the texts it adds. */
  lemma ContinuedKey(k: string, k': string)
    requires Pieces(k) <= Pieces(k') && Added(k, k') != []
    ensures k' == k + "|" + Join(Added(k, k'))
  {
    JoinOfPieces(k);
    JoinOfPieces(k');
    JoinPrefix(Pieces(k), Pieces(k'));
  }

  lemma JoinPrefix(p: seq<string>, p': seq<string>)
    requires p != [] && p <= p' && |p| < |p'|
    ensures Join(p') == Join(p) + "|" + Join(p'[|p|..])
  {
    assert p' == p + p'[|p|..];
    JoinConcat(p, p'[|p|..]);
  }

  /** A text without a bar is on the same side of a key with one and of its continuations. */
  lemma {:induction false} SameSide(k: string, k': string, u: string)
    requires '|' in k && k <= k' && '|' !in u
    ensures LE(k, u) <==> LE(k', u)
  {
    if u != "" && k[0] == u[0] {
      SameSide(k[1..], k'[1..], u[1..]);
    }
  }

  lemma SidesAgree(k: string, k': string)
    requires '|' in k && Continues(k, k')
    ensures forall u :: '|' !in u ==> (LE(k, u) <==> LE(k', u))
  {
    ContinuedKey(k, k');
    forall u | '|' !in u ensures LE(k, u) <==> LE(k', u) {
      SameSide(k, k', u);
    }
  }

  // ------------------------------------------------------------------ equal tokens, continued key

  /** Place texts first, then something else: the front of place texts is determined. */
  lemma SameFront(b: seq<string>, rest: seq<string>, b': seq<string>, rest': seq<string>)
    requires b + rest == b' + rest' && rest != [] && rest' != []
    requires AllPlaceLike(b) && AllPlaceLike(b')
    requires !PlaceLike(rest[0]) && !PlaceLike(rest'[0])
    ensures b == b' && rest == rest'
  {
    var all := b + rest;
    FrontEnds(b, rest, |b'|);
    FrontEnds(b', rest', |b|);
    assert b == all[..|b|] && b' == all[..|b'|] && rest == all[|b|..] && rest' == all[|b'|..];
  }

  lemma FrontEnds(b: seq<string>, rest: seq<string>, n: nat)
    requires rest != [] && n < |b + rest| && AllPlaceLike(b)
    ensures !PlaceLike((b + rest)[n]) ==> n >= |b|
  {
  }

  lemma CutSecond(p: seq<string>, a: seq<string>, p': seq<string>, a': seq<string>)
    requires p + a == p' + a' && |p| <= |p'|
    ensures p <= p' && a == p'[|p|..] + a'
  {
    var all := p + a;
    assert p == all[..|p|] && p' == all[..|p'|];
    assert p == p'[..|p|];
    assert a == all[|p|..] && a' == all[|p'|..];
    assert all[|p|..] == p'[|p|..] + a';
  }

  /** Of two framed keys with one token, the longer continues the shorter, and the texts around them agree. */
  lemma EqualTokensSplit(fix: Fixed, k: string, rows: seq<StatusRow>, k': string, rows': seq<StatusRow>)
    requires PlainText(fix) && Framed(k) && Framed(k') && Token(fix, k, rows) == Token(fix, k', rows')
    requires |Pieces(k)| <= |Pieces(k')|
    ensures var s, s' := Sort(LE, Texts(fix, rows)), Sort(LE, Texts(fix, rows'));
      var n, n' := Rank(k, s), Rank(k', s');
      && Pieces(k) <= Pieces(k') && s[..n] == s'[..n'] && s[n..] == Added(k, k') + s'[n'..]
  {
    var s, s' := Sort(LE, Texts(fix, rows)), Sort(LE, Texts(fix, rows'));
    var n, n' := Rank(k, s), Rank(k', s');
    PiecesOfToken(fix, k, rows);
    PiecesOfToken(fix, k', rows');
    SortedRowTexts(fix, rows);
    SortedRowTexts(fix, rows');
    PlaceLikeFront(s, n);
    PlaceLikeFront(s', n');
    SplitParts(s[..n], Pieces(k), s[n..], s'[..n'], Pieces(k'), s'[n'..]);
  }

  ghost predicate AllPlaceLike(s: seq<string>) {
    forall i :: 0 <= i < |s| ==> PlaceLike(s[i])
  }

  lemma PlaceLikeFront(s: seq<string>, n: nat)
    requires AllRowTexts(s) && n <= |s|
    ensures AllPlaceLike(s[..n])
  {
  }

  lemma SplitParts(b: seq<string>, p: seq<string>, a: seq<string>, b': seq<string>, p': seq<string>, a': seq<string>)
    requires b + p + a == b' + p' + a' && AllPlaceLike(b) && AllPlaceLike(b')
    requires p != [] && p' != [] && !PlaceLike(p[0]) && !PlaceLike(p'[0]) && |p| <= |p'|
    ensures b == b' && p <= p' && a == p'[|p|..] + a'
  {
    assert b + p + a == b + (p + a) && b' + p' + a' == b' + (p' + a');
    SameFront(b, p + a, b', p' + a');
    CutSecond(p, a, p', a');
  }

  /** Sorted texts around a key, and the same texts without those its continuation adds. */
  ghost predicate SplitAt(k: string, s: seq<string>, n: nat, s': seq<string>, n': nat, added: seq<string>) {
    && InOrder(s) && n == Rank(k, s) && n' <= |s'| && s[..n] == s'[..n'] && s[n..] == added + s'[n'..]
  }

  lemma SplitOrder(k: string, s: seq<string>, n: nat, s': seq<string>, n': nat, added: seq<string>)
    requires SplitAt(k, s, n, s', n', added)
    ensures InOrder(added) && forall i :: 0 <= i < |added| ==> LE(k, added[i])
  {
    AboveRank(k, s);
    assert forall i :: 0 <= i < |added| ==> s[n + i] == s[n..][i] == added[i];
  }

  lemma FrontSame(s: seq<string>, n: nat, s': seq<string>, n': nat)
    requires n <= |s| && n' <= |s'| && s[..n] == s'[..n']
    ensures n == n' && forall j :: 0 <= j < n ==> s[j] == s'[j]
  {
    assert |s[..n]| == |s'[..n']|;
    assert forall j :: 0 <= j < n ==> s[..n][j] == s'[..n'][j];
  }

  lemma SplitAbove(k: string, s: seq<string>, n: nat, s': seq<string>, n': nat, added: seq<string>, t: string, u: string)
    requires SplitAt(k, s, n, s', n', added) && t in added && u in s' && LE(k, u)
    ensures LE(t, u)
  {
    RankSplits(k, s);
    var i :| 0 <= i < |added| && added[i] == t;
    var j :| 0 <= j < |s'| && s'[j] == u;
    FrontSame(s, n, s', n');
    assert s[n + i] == s[n..][i] == t;
    var m := n + |added| + (j - n');
    assert s[m] == s[n..][m - n] == s'[n'..][j - n'] == u;
  }

  lemma SplitHides(fix: Fixed, k: string, rows: seq<StatusRow>, k': string, rows': seq<StatusRow>)
    requires var s, s' := Sort(LE, Texts(fix, rows)), Sort(LE, Texts(fix, rows'));
      Pieces(k) <= Pieces(k') && Added(k, k') != [] && SplitAt(k, s, Rank(k, s), s', Rank(k', s'), Added(k, k'))
    ensures Hides(fix, k, rows, k', rows')
  {
    var s, s' := Sort(LE, Texts(fix, rows)), Sort(LE, Texts(fix, rows'));
    var n, n', added := Rank(k, s), Rank(k', s'), Added(k, k');
    SortedTexts(Texts(fix, rows));
    SortedTexts(Texts(fix, rows'));
    SplitOrder(k, s, n, s', n', added);
    PartsMultiset(s, n, s', n', added);
    PermutationSize(s', Texts(fix, rows'));
    forall t, u | t in added && u in Texts(fix, rows') && LE(k, u) ensures LE(t, u) {
      assert u in Elements(s');
      SplitAbove(k, s, n, s', n', added, t, u);
    }
  }

  lemma AboveRank(k: string, s: seq<string>)
    requires InOrder(s)
    ensures forall i :: Rank(k, s) <= i < |s| ==> LE(k, s[i])
  {
    RankSplits(k, s);
    forall i | Rank(k, s) <= i < |s| ensures LE(k, s[i]) {
      LETransitive(k, s[Rank(k, s)], if i > Rank(k, s) then s[i] else s[Rank(k, s)]) by {
        LETotal(s[i], s[i]);
      }
    }
  }

  lemma PartsMultiset(s: seq<string>, n: nat, s': seq<string>, n': nat, added: seq<string>)
    requires n <= |s| && n' <= |s'| && s[..n] == s'[..n'] && s[n..] == added + s'[n'..]
    ensures multiset(s) == multiset(added) + multiset(s')
  {
    assert s == s[..n] + s[n..] && s' == s'[..n'] + s'[n'..];
  }

  // ------------------------------------------------------------------ a continued key, equal tokens

  /** The named texts, put where the key stands, keep everything in order. */
  lemma MergedInOrder(k: string, s': seq<string>, n': nat, added: seq<string>)
    requires InOrder(s') && n' == Rank(k, s') && InOrder(added) && forall i :: 0 <= i < |added| ==> LE(k, added[i])
    requires forall t, u :: t in added && u in s' && LE(k, u) ==> LE(t, u)
    ensures InOrder(s'[..n'] + added + s'[n'..])
  {
    var s := s'[..n'] + added + s'[n'..];
    RankSplits(k, s');
    AboveRank(k, s');
    forall i, j | 0 <= i < j < |s| ensures LE(s[i], s[j]) {
      if i < n' {
        assert s[i] == s'[i];
        if n' <= j < n' + |added| {
          assert s[j] == added[j - n'];
          BelowKey(s'[i], k, added[j - n']);
        }
      } else if i < n' + |added| {
        assert s[i] == added[i - n'];
        if j >= n' + |added| {
          assert s[j] == s'[j - |added|];
          BelowOthers(s[i], k, s[j], added, s');
        }
      } else {
        assert s[i] == s'[i - |added|] && s[j] == s'[j - |added|];
      }
    }
  }

  lemma BelowOthers(t: string, k: string, u: string, added: seq<string>, s': seq<string>)
    requires t in added && u in s' && LE(k, u) && forall t, u :: t in added && u in s' && LE(k, u) ==> LE(t, u)
    ensures LE(t, u)
  {
  }

  lemma BelowKey(u: string, k: string, t: string)
    requires !LE(k, u) && LE(k, t)
    ensures LE(u, t)
  {
    LETotal(k, u);
    LETransitive(u, k, t);
  }

  lemma PutBetween<T>(s: seq<T>, n: nat, added: seq<T>)
    requires n <= |s|
    ensures multiset(s[..n] + added + s[n..]) == multiset(added) + multiset(s)
  {
    assert s == s[..n] + s[n..];
  }

  /** The sorted texts of the view with the named rows. */
  lemma MergedSorted(texts: seq<string>, k: string, s': seq<string>, n': nat, added: seq<string>)
    requires InOrder(s') && n' == Rank(k, s') && InOrder(added) && forall i :: 0 <= i < |added| ==> LE(k, added[i])
    requires forall t, u :: t in added && u in s' && LE(k, u) ==> LE(t, u)
    requires multiset(texts) == multiset(added) + multiset(s')
    ensures Sort(LE, texts) == s'[..n'] + added + s'[n'..] && Rank(k, Sort(LE, texts)) == n'
  {
    var s := s'[..n'] + added + s'[n'..];
    MergedInOrder(k, s', n', added);
    PutBetween(s', n', added);
    OnlyOrder(texts, s);
    RankSplits(k, s');
    assert forall i :: 0 <= i < n' ==> s[i] == s'[i];
    assert n' < |s| ==> s[n'] == if added != [] then added[0] else s'[n'];
    RankIs(k, s, n');
  }

  lemma {:induction false} RankSame(k: string, k': string, s: seq<string>)
    requires forall i :: 0 <= i < |s| ==> (LE(k, s[i]) <==> LE(k', s[i]))
    ensures Rank(k, s) == Rank(k', s)
  {
    if s != [] {
      RankSame(k, k', s[1..]);
    }
  }

  /** A key that names the rows standing under the other key gives the same token. */
  lemma HiddenSameToken(fix: Fixed, k: string, rows: seq<StatusRow>, k': string, rows': seq<StatusRow>)
    requires PlainText(fix) && '|' in k && Hides(fix, k, rows, k', rows')
    ensures Token(fix, k, rows) == Token(fix, k', rows')
  {
    var s' := Sort(LE, Texts(fix, rows'));
    var n, added := Rank(k, s'), Added(k, k');
    SortedTexts(Texts(fix, rows'));
    SortedRowTexts(fix, rows');
    SidesAgree(k, k');
    RankSame(k, k', s');
    PermutationSize(s', Texts(fix, rows'));
    assert forall u :: u in s' <==> u in Elements(s');
    MergedSorted(Texts(fix, rows), k, s', n, added);
    PiecesOfToken(fix, k, rows);
    PiecesOfToken(fix, k', rows');
    SamePieces(s', n, Pieces(k), added, Pieces(k'));
    JoinOfPieces(Token(fix, k, rows));
    JoinOfPieces(Token(fix, k', rows'));
  }

  lemma SamePieces(s: seq<string>, n: nat, p: seq<string>, added: seq<string>, p': seq<string>)
    requires n <= |s| && p <= p' && added == p'[|p|..]
    ensures var merged := s[..n] + added + s[n..];
      merged[..n] + p + merged[n..] == s[..n] + p' + s[n..]
  {
    var merged := s[..n] + added + s[n..];
    assert merged[..n] == s[..n] && merged[n..] == added + s[n..];
    assert p' == p + added;
  }

  // ------------------------------------------------------------------ the exact condition

  /**
   Two framed keys have the same token exactly when they show the same view, or one of them names, in
   order after a bar, rows that stand under the other.
   */
  lemma TokensAlikeIff(fix: Fixed, k: string, rows: seq<StatusRow>, k': string, rows': seq<StatusRow>)
    requires PlainText(fix) && Framed(k) && Framed(k')
    ensures Token(fix, k, rows) == Token(fix, k', rows')
      <==> ((k == k' && multiset(Places(fix, rows)) == multiset(Places(fix, rows')))
            || Hides(fix, k, rows, k', rows') || Hides(fix, k', rows', k, rows))
  {
    if k == k' {
      TokenTellsPlaces(fix, k, rows, rows');
    } else if Token(fix, k, rows) == Token(fix, k', rows') {
      if |Pieces(k)| <= |Pieces(k')| {
        AlikeHides(fix, k, rows, k', rows');
      } else {
        AlikeHides(fix, k', rows', k, rows);
      }
    } else {
      NotAlike(fix, k, rows, k', rows');
    }
  }

  lemma NotAlike(fix: Fixed, k: string, rows: seq<StatusRow>, k': string, rows': seq<StatusRow>)
    requires PlainText(fix) && Framed(k) && Framed(k') && Token(fix, k, rows) != Token(fix, k', rows')
    ensures !Hides(fix, k, rows, k', rows') && !Hides(fix, k', rows', k, rows)
  {
    if Hides(fix, k, rows, k', rows') {
      HiddenSameToken(fix, k, rows, k', rows');
    }
    if Hides(fix, k', rows', k, rows) {
      HiddenSameToken(fix, k', rows', k, rows);
    }
  }

  lemma NothingAdded(k: string, k': string)
    requires Pieces(k) <= Pieces(k') && Added(k, k') == []
    ensures k == k'
  {
    PrefixWhole(Pieces(k), Pieces(k'));
    JoinOfPieces(k);
    JoinOfPieces(k');
  }

  lemma PrefixWhole<T>(p: seq<T>, p': seq<T>)
    requires p <= p' && p'[|p|..] == []
    ensures p == p'
  {
  }

  lemma AlikeHides(fix: Fixed, k: string, rows: seq<StatusRow>, k': string, rows': seq<StatusRow>)
    requires PlainText(fix) && Framed(k) && Framed(k') && k != k' && |Pieces(k)| <= |Pieces(k')|
    requires Token(fix, k, rows) == Token(fix, k', rows')
    ensures Hides(fix, k, rows, k', rows')
  {
    EqualTokensSplit(fix, k, rows, k', rows');
    if Added(k, k') == [] {
      NothingAdded(k, k');
    } else {
      SortedTexts(Texts(fix, rows));
      SplitHides(fix, k, rows, k', rows');
    }
  }

  // ------------------------------------------------------------------ which keys can share a token

  /** The text of some row. */
  ghost predicate RealText(fix: Fixed, t: string) {
    exists row: StatusRow :: Texts(fix, [row]) == [t]
  }

  lemma {:induction false} RowsFor(fix: Fixed, texts: seq<string>) returns (rows: seq<StatusRow>)
    requires forall i :: 0 <= i < |texts| ==> RealText(fix, texts[i])
    ensures Texts(fix, rows) == texts
  {
    if texts == [] {
      rows := [];
    } else {
      assert RealText(fix, texts[0]);
      var row: StatusRow :| Texts(fix, [row]) == [texts[0]];
      var rest := RowsFor(fix, texts[1..]);
      rows := [row] + rest;
      TextsCons(fix, row, rest);
    }
  }

  lemma TextsCons(fix: Fixed, row: StatusRow, rest: seq<StatusRow>)
    ensures Texts(fix, [row] + rest) == Texts(fix, [row]) + Texts(fix, rest)
  {
    PlacesCons(fix, row, rest);
    MapConcat(PlaceText, Places(fix, [row]), Places(fix, rest));
  }

  lemma MapConcat<S, T>(f: S -> T, a: seq<S>, b: seq<S>)
    ensures Map(f, a + b) == Map(f, a) + Map(f, b)
  {
  }

  lemma {:induction false} TextsAreReal(fix: Fixed, rows: seq<StatusRow>)
    ensures forall i :: 0 <= i < |Texts(fix, rows)| ==> RealText(fix, Texts(fix, rows)[i])
  {
    if rows != [] {
      TextsAreReal(fix, rows[1..]);
      assert rows == [rows[0]] + rows[1..];
      TextsCons(fix, rows[0], rows[1..]);
      assert |Texts(fix, [rows[0]])| <= 1;
      if Texts(fix, [rows[0]]) != [] {
        assert Texts(fix, [rows[0]]) == [Texts(fix, rows)[0]];
      }
    }
  }

  /** `k'` continues `k` with the texts of rows. */
  ghost predicate Names(fix: Fixed, k: string, k': string) {
    Continues(k, k') && forall i :: 0 <= i < |Added(k, k')| ==> RealText(fix, Added(k, k')[i])
  }

  lemma HidesNames(fix: Fixed, k: string, rows: seq<StatusRow>, k': string, rows': seq<StatusRow>)
    requires Hides(fix, k, rows, k', rows')
    ensures Names(fix, k, k')
  {
    TextsAreReal(fix, rows);
    forall i | 0 <= i < |Added(k, k')| ensures RealText(fix, Added(k, k')[i]) {
      var t := Added(k, k')[i];
      assert t in multiset(Added(k, k'));
      assert t in multiset(Texts(fix, rows));
      var j :| 0 <= j < |Texts(fix, rows)| && Texts(fix, rows)[j] == t;
    }
  }

  lemma NamedCollide(fix: Fixed, k: string, k': string)
    requires PlainText(fix) && Framed(k) && Names(fix, k, k')
    ensures exists rows, rows' :: Token(fix, k, rows) == Token(fix, k', rows')
  {
    var rows := RowsFor(fix, Added(k, k'));
    assert Texts(fix, []) == [];
    assert Hides(fix, k, rows, k', []);
    HiddenSameToken(fix, k, rows, k', []);
  }

  /** Two different framed keys can share a token exactly when one continues the other with the texts of rows. */
  lemma KeysShareTokenIff(fix: Fixed, k: string, k': string)
    requires PlainText(fix) && Framed(k) && Framed(k') && k != k'
    ensures (exists rows, rows' :: Token(fix, k, rows) == Token(fix, k', rows')) <==> Names(fix, k, k') || Names(fix, k', k)
  {
    forall rows, rows' | Token(fix, k, rows) == Token(fix, k', rows') ensures Names(fix, k, k') || Names(fix, k', k) {
      TokensAlikeIff(fix, k, rows, k', rows');
      if Hides(fix, k, rows, k', rows') {
        HidesNames(fix, k, rows, k', rows');
      } else {
        HidesNames(fix, k', rows', k, rows);
      }
    }
    if Names(fix, k, k') {
      NamedCollide(fix, k, k');
    } else if Names(fix, k', k) {
      NamedCollide(fix, k', k);
      var rows', rows :| Token(fix, k', rows') == Token(fix, k, rows);
      assert Token(fix, k, rows) == Token(fix, k', rows');
    }
  }

  // ------------------------------------------------------------------ the keys of the pages

  lemma {:induction false} HeadPiece(head: string, rest: string)
    requires '|' !in head
    ensures Pieces(head + "|" + rest)[0] == head
  {
    PiecesOfBar(head, rest);
    PiecesUnbroken(head);
  }

  /** A key that begins with a group id, which has neither a colon nor a bar, and a bar is framed. */
  lemma PageKeysFramed(groupId: string, rest: string)
    requires '|' !in groupId && ':' !in groupId
    ensures Framed(groupId + "|" + rest)
  {
    var k := groupId + "|" + rest;
    HeadPiece(groupId, rest);
    assert k[|groupId|] == '|';
    forall p: Place ensures PlaceText(p) != groupId {
      assert PlaceText(p)[|IdText(p.id)|] == ':';
    }
  }
}
