/**
 When the live map refocuses: a token of the fit key and of the located rows' rounded positions is
 compared with the token of the previous update.
 */
module FocusToken {
  import opened Seqs
  import opened Sorting
  import UserDays
  import opened LiveMarkers

  // ------------------------------------------------------------------ sorting strings

  /** Lexicographic order by code unit. */
  predicate LE(a: string, b: string) {
    a == "" || (b != "" && (a[0] < b[0] || (a[0] == b[0] && LE(a[1..], b[1..]))))
  }

  lemma {:induction false} LETotal(a: string, b: string)
    ensures LE(a, b) || LE(b, a)
  {
    if a != "" && b != "" && a[0] == b[0] {
      LETotal(a[1..], b[1..]);
    }
  }

  lemma {:induction false} LEAntisymmetric(a: string, b: string)
    requires LE(a, b) && LE(b, a)
    ensures a == b
  {
    if a != "" && b != "" {
      LEAntisymmetric(a[1..], b[1..]);
      assert a == [a[0]] + a[1..] && b == [b[0]] + b[1..];
    }
  }

  lemma {:induction false} LETransitive(a: string, b: string, c: string)
    requires LE(a, b) && LE(b, c)
    ensures LE(a, c)
  {
    if a != "" && b != "" && c != "" && a[0] == b[0] == c[0] {
      LETransitive(a[1..], b[1..], c[1..]);
    }
  }

  lemma LEOrders(d: set<string>)
    ensures Orders(LE, d) && Antisymmetric(LE, d)
  {
    forall x, y | x in d && y in d
      ensures LE(x, y) || LE(y, x)
      ensures LE(x, y) && LE(y, x) ==> x == y
    {
      LETotal(x, y);
      if LE(x, y) && LE(y, x) {
        LEAntisymmetric(x, y);
      }
    }
    forall x, y, z | x in d && y in d && z in d && LE(x, y) && LE(y, z) ensures LE(x, z) {
      LETransitive(x, y, z);
    }
  }

  // ------------------------------------------------------------------ joining with bars

  function Join(parts: seq<string>): string {
    if parts == [] then "" else if |parts| == 1 then parts[0] else parts[0] + "|" + Join(parts[1..])
  }

  /** The stretches between bars. */
  function Pieces(s: string): (r: seq<string>)
    ensures r != []
  {
    if s == "" then [""]
    else Grow(s[0], Pieces(s[1..]))
  }

  lemma BarTail(a: string, b: string)
    ensures a != "" ==> (a + "|" + b)[0] == a[0] && (a + "|" + b)[1..] == a[1..] + "|" + b
    ensures a == "" ==> (a + "|" + b)[0] == '|' && (a + "|" + b)[1..] == b
  {
  }

  /** The pieces of a text with `c` in front. */
  function Grow(c: char, p: seq<string>): seq<string>
    requires p != []
  {
    if c == '|' then [""] + p else [[c] + p[0]] + p[1..]
  }

  lemma GrowConcat(c: char, p: seq<string>, q: seq<string>)
    requires p != []
    ensures Grow(c, p + q) == Grow(c, p) + q
  {
  }

  lemma {:induction false} PiecesOfBar(a: string, b: string)
    ensures Pieces(a + "|" + b) == Pieces(a) + Pieces(b)
  {
    var t := a + "|" + b;
    BarTail(a, b);
    assert Pieces(t) == Grow(t[0], Pieces(t[1..]));
    if a != "" {
      PiecesOfBar(a[1..], b);
      GrowConcat(a[0], Pieces(a[1..]), Pieces(b));
    }
  }

  lemma {:induction false} PiecesUnbroken(s: string)
    requires '|' !in s
    ensures Pieces(s) == [s]
  {
    if s != "" {
      PiecesUnbroken(s[1..]);
      assert s == [s[0]] + s[1..];
    }
  }

  lemma {:induction false} PiecesOfJoin(parts: seq<string>)
    requires parts != []
    ensures Pieces(Join(parts)) == FlatMap(Pieces, parts)
  {
    if |parts| == 1 {
      assert FlatMap(Pieces, parts) == Pieces(parts[0]) + FlatMap(Pieces, []);
    } else {
      PiecesOfJoin(parts[1..]);
      PiecesOfBar(parts[0], Join(parts[1..]));
    }
  }

  lemma {:induction false} UnbrokenPieces(parts: seq<string>)
    requires forall i :: 0 <= i < |parts| ==> '|' !in parts[i]
    ensures FlatMap(Pieces, parts) == parts
  {
    if parts != [] {
      UnbrokenPieces(parts[1..]);
      PiecesUnbroken(parts[0]);
      assert parts == [parts[0]] + parts[1..];
    }
  }

  // ------------------------------------------------------------------ the token

  /** A coordinate as text, rounded to five digits; a number's text holds no separator. */
  type Fixed = real -> string

  ghost predicate PlainText(fix: Fixed) {
    forall x: real :: ',' !in fix(x) && '|' !in fix(x) && ':' !in fix(x)
  }

  function IdText(id: int): string {
    if id < 0 then "-" + UserDays.Decimal(-id) else UserDays.Decimal(id)
  }

  /** A located row's identity and rounded position. */
  datatype Place = Place(id: int, lat: string, lon: string)

  function Places(fix: Fixed, rows: seq<StatusRow>): seq<Place> {
    if rows == [] then []
    else
      (if Located(rows[0]) then [Place(rows[0].id, fix(rows[0].lat.value), fix(rows[0].lon.value))] else [])
      + Places(fix, rows[1..])
  }

  /** Each row with finite coordinates gives one place: its id and its rounded position. */
  lemma PlaceOfRow(fix: Fixed, row: StatusRow)
    ensures row.lat.Finite? && row.lon.Finite? ==>
      Places(fix, [row]) == [Place(row.id, fix(row.lat.value), fix(row.lon.value))]
    ensures !(row.lat.Finite? && row.lon.Finite?) ==> Places(fix, [row]) == []
  {
    assert [row][1..] == [] && Places(fix, []) == [];
  }

  /** The places of several rows are the places of each, one after the other. */
  lemma PlacesCons(fix: Fixed, row: StatusRow, rest: seq<StatusRow>)
    ensures Places(fix, [row] + rest) == Places(fix, [row]) + Places(fix, rest)
  {
    assert ([row] + rest)[1..] == rest && [row][1..] == [];
    assert Places(fix, []) == [];
  }

  function PlaceText(p: Place): string {
    IdText(p.id) + ":" + p.lat + "," + p.lon
  }

  function Token(fix: Fixed, fitKey: string, rows: seq<StatusRow>): string {
    Join(Sort(LE, [fitKey] + Map(PlaceText, Places(fix, rows))))
  }

  ghost predicate Plain(p: Place) {
    && ',' !in p.lat && '|' !in p.lat && ':' !in p.lat
    && ',' !in p.lon && '|' !in p.lon && ':' !in p.lon
  }

  lemma {:induction false} PlacesPlain(fix: Fixed, rows: seq<StatusRow>)
    requires PlainText(fix)
    ensures forall i :: 0 <= i < |Places(fix, rows)| ==> Plain(Places(fix, rows)[i])
  {
    if rows != [] {
      PlacesPlain(fix, rows[1..]);
    }
  }

  lemma IdTextPlain(id: int)
    ensures forall i :: 0 <= i < |IdText(id)| ==> IdText(id)[i] == '-' || '0' <= IdText(id)[i] <= '9'
  {
  }

  lemma IdTextInjective(a: int, b: int)
    requires IdText(a) == IdText(b)
    ensures a == b
  {
    var d, e := if a < 0 then -a else a, if b < 0 then -b else b;
    UserDays.DecimalReadsBack(d);
    UserDays.DecimalReadsBack(e);
    assert a < 0 ==> IdText(a)[0] == '-' && IdText(a)[1..] == UserDays.Decimal(d);
    assert b < 0 ==> IdText(b)[0] == '-' && IdText(b)[1..] == UserDays.Decimal(e);
  }

  lemma FirstCharAt(a: string, b: string, c: char, i: nat)
    requires c !in a && i <= |a|
    ensures (a + [c] + b)[i] == c <==> i == |a|
  {
    if i < |a| {
      assert (a + [c] + b)[i] == a[i] && a[i] in a;
    }
  }

  /** The text before the first `c`, and the text after it, are determined. */
  lemma CutAt(a: string, b: string, a': string, b': string, c: char)
    requires a + [c] + b == a' + [c] + b' && c !in a && c !in a'
    ensures a == a' && b == b'
  {
    var n := if |a| < |a'| then |a| else |a'|;
    FirstCharAt(a, b, c, n);
    FirstCharAt(a', b', c, n);
    var s := a + [c] + b;
    assert s[..n] == a && s[..n] == a' && s[n + 1..] == b && s[n + 1..] == b';
  }

  lemma PlaceTextInjective(p: Place, q: Place)
    requires Plain(p) && Plain(q) && PlaceText(p) == PlaceText(q)
    ensures p == q
  {
    IdTextPlain(p.id);
    IdTextPlain(q.id);
    assert PlaceText(p) == IdText(p.id) + [':'] + (p.lat + "," + p.lon);
    assert PlaceText(q) == IdText(q.id) + [':'] + (q.lat + "," + q.lon);
    CutAt(IdText(p.id), p.lat + "," + p.lon, IdText(q.id), q.lat + "," + q.lon, ':');
    CutAt(p.lat, p.lon, q.lat, q.lon, ',');
    IdTextInjective(p.id, q.id);
  }

  lemma PlaceTextUnbroken(p: Place)
    requires Plain(p)
    ensures '|' !in PlaceText(p)
  {
    IdTextPlain(p.id);
  }

  lemma CountCons<T>(x: T, rest: seq<T>, y: T)
    ensures multiset([x] + rest)[y] == multiset(rest)[y] + if x == y then 1 else 0
  {
  }

  lemma CountFirst<T>(s: seq<T>, y: T)
    requires s != []
    ensures multiset(s)[y] == multiset(s[1..])[y] + if s[0] == y then 1 else 0
  {
    assert s == [s[0]] + s[1..];
    CountCons(s[0], s[1..], y);
  }

  lemma CountMapped<S, T>(f: S -> T, s: seq<S>, y: T)
    requires s != []
    ensures multiset(Map(f, s))[y] == multiset(Map(f, s[1..]))[y] + if f(s[0]) == y then 1 else 0
  {
    CountCons(f(s[0]), Map(f, s[1..]), y);
  }

  lemma {:induction false} TextCount(places: seq<Place>, p: Place)
    requires Plain(p) && forall i :: 0 <= i < |places| ==> Plain(places[i])
    ensures multiset(Map(PlaceText, places))[PlaceText(p)] == multiset(places)[p]
  {
    if places != [] {
      TextCount(places[1..], p);
      CountFirst(places, p);
      CountMapped(PlaceText, places, PlaceText(p));
      if PlaceText(places[0]) == PlaceText(p) {
        PlaceTextInjective(places[0], p);
      }
    }
  }

  lemma SameTextsSamePlaces(a: seq<Place>, b: seq<Place>)
    requires forall i :: 0 <= i < |a| ==> Plain(a[i])
    requires forall i :: 0 <= i < |b| ==> Plain(b[i])
    requires multiset(Map(PlaceText, a)) == multiset(Map(PlaceText, b))
    ensures multiset(a) == multiset(b)
  {
    forall p | p in a || p in b ensures multiset(a)[p] == multiset(b)[p] {
      TextCount(a, p);
      TextCount(b, p);
    }
    assert forall p :: p !in a && p !in b ==> multiset(a)[p] == 0 == multiset(b)[p];
  }

  /** The bars of a token separate the pieces of the fit key and one text per located row. */
  lemma TokenPieces(fix: Fixed, fitKey: string, rows: seq<StatusRow>)
    requires PlainText(fix)
    ensures multiset(Pieces(Token(fix, fitKey, rows)))
      == multiset(Map(PlaceText, Places(fix, rows))) + multiset(Pieces(fitKey))
  {
    var texts := Map(PlaceText, Places(fix, rows));
    var parts := [fitKey] + texts;
    SortKeeps(LE, parts);
    PermutationSize(Sort(LE, parts), parts);
    PiecesOfJoin(Sort(LE, parts));
    FlatMapPermutes(Pieces, Sort(LE, parts), parts);
    PlacesPlain(fix, rows);
    forall i | 0 <= i < |texts| ensures '|' !in texts[i] {
      PlaceTextUnbroken(Places(fix, rows)[i]);
    }
    UnbrokenPieces(texts);
    assert parts[1..] == texts;
  }

  lemma SamePlacesSameToken(fix: Fixed, fitKey: string, rows: seq<StatusRow>, rows': seq<StatusRow>)
    requires multiset(Places(fix, rows)) == multiset(Places(fix, rows'))
    ensures Token(fix, fitKey, rows) == Token(fix, fitKey, rows')
  {
    MapPermutes(PlaceText, Places(fix, rows), Places(fix, rows'));
    LEOrders(Elements([fitKey] + Map(PlaceText, Places(fix, rows))));
    SortCanonical(LE, [fitKey] + Map(PlaceText, Places(fix, rows)), [fitKey] + Map(PlaceText, Places(fix, rows')));
  }

  lemma SameTokenSamePlaces(fix: Fixed, fitKey: string, rows: seq<StatusRow>, rows': seq<StatusRow>)
    requires PlainText(fix) && Token(fix, fitKey, rows) == Token(fix, fitKey, rows')
    ensures multiset(Places(fix, rows)) == multiset(Places(fix, rows'))
  {
    var a, b := Places(fix, rows), Places(fix, rows');
    TokenPieces(fix, fitKey, rows);
    TokenPieces(fix, fitKey, rows');
    CancelSame(multiset(Map(PlaceText, a)), multiset(Map(PlaceText, b)), multiset(Pieces(fitKey)));
    PlacesPlain(fix, rows);
    PlacesPlain(fix, rows');
    SameTextsSamePlaces(a, b);
  }

  /**
   Under one fit key, two updates have the same token exactly when they locate the same rows at the
   same rounded positions, whatever the order of the rows and their other fields.
   */
  lemma TokenTellsPlaces(fix: Fixed, fitKey: string, rows: seq<StatusRow>, rows': seq<StatusRow>)
    requires PlainText(fix)
    ensures Token(fix, fitKey, rows) == Token(fix, fitKey, rows')
      <==> multiset(Places(fix, rows)) == multiset(Places(fix, rows'))
  {
    if multiset(Places(fix, rows)) == multiset(Places(fix, rows')) {
      SamePlacesSameToken(fix, fitKey, rows, rows');
    } else if Token(fix, fitKey, rows) == Token(fix, fitKey, rows') {
      SameTokenSamePlaces(fix, fitKey, rows, rows');
    }
  }
}
