/**
 Whether an update of the live map refocuses it, over whole runs, and what that means for the page.
 */
module FocusRuns {
  import opened Seqs
  import opened Sorting
  import Ndjson
  import opened LiveMarkers
  import opened FocusToken
  import opened FocusKeys

  // ------------------------------------------------------------------ the decision

  /** One update; `throws` tells whether focusing the map would fail. */
  datatype Update = Update(fitKey: string, rows: seq<StatusRow>, throws: bool)

  function TokenOf(fix: Fixed, u: Update): string {
    Token(fix, u.fitKey, u.rows)
  }

  lemma LocatedTokenNonEmpty(fix: Fixed, u: Update)
    requires Places(fix, u.rows) != []
    ensures TokenOf(fix, u) != ""
  {
    var parts := [u.fitKey] + Map(PlaceText, Places(fix, u.rows));
    SortKeeps(LE, parts);
    PermutationSize(Sort(LE, parts), parts);
    assert |Sort(LE, parts)| >= 2;
  }

  class FocusMemory {
    const fix: Fixed
    var last: string

    constructor (fix: Fixed)
      ensures this.fix == fix && last == ""
    {
      this.fix, last := fix, "";
    }

    /** The end of one update: focus unless nothing is located or the token is unchanged. */
    method Decide(u: Update) returns (focused: bool)
      modifies this
      ensures focused <==> Places(fix, u.rows) != [] && TokenOf(fix, u) != old(last)
      ensures last == if focused && u.throws then "" else TokenOf(fix, u)
    {
      var token := TokenOf(fix, u);
      if |Places(fix, u.rows)| == 0 {
        last := token;
        return false;
      }
      if token == last {
        return false;
      }
      last := token;
      if u.throws {
        last := "";
      }
      return true;
    }
  }

  /** The view of an update differs from another's: its fit key, or which rows are where. */
  ghost predicate ViewChanged(fix: Fixed, u: Update, v: Update) {
    u.fitKey != v.fitKey || multiset(Places(fix, u.rows)) != multiset(Places(fix, v.rows))
  }

  /** One of the keys names, after a bar, the rows by which the other view differs; see `Hides`. */
  ghost predicate Masked(fix: Fixed, u: Update, v: Update) {
    Hides(fix, u.fitKey, u.rows, v.fitKey, v.rows) || Hides(fix, v.fitKey, v.rows, u.fitKey, u.rows)
  }

  /**
   What counts as a change: a changed view, unless one fit key masks it. Only for keys that no page
   builds, which begin with a place text or have no bar, do the tokens have to decide.
   */
  ghost predicate Changed(fix: Fixed, u: Update, v: Update) {
    if u.fitKey == v.fitKey || (Framed(u.fitKey) && Framed(v.fitKey)) then ViewChanged(fix, u, v) && !Masked(fix, u, v)
    else TokenOf(fix, u) != TokenOf(fix, v)
  }

  lemma NothingMasksItself(fix: Fixed, u: Update, v: Update)
    requires u.fitKey == v.fitKey
    ensures !Masked(fix, u, v)
  {
    assert Pieces(u.fitKey)[|Pieces(u.fitKey)|..] == [];
  }

  lemma ChangedIsToken(fix: Fixed, u: Update, v: Update)
    requires PlainText(fix)
    ensures Changed(fix, u, v) <==> TokenOf(fix, u) != TokenOf(fix, v)
  {
    if u.fitKey == v.fitKey {
      NothingMasksItself(fix, u, v);
      TokenTellsPlaces(fix, u.fitKey, u.rows, v.rows);
    } else if Framed(u.fitKey) && Framed(v.fitKey) {
      TokensAlikeIff(fix, u.fitKey, u.rows, v.fitKey, v.rows);
    }
  }

  /** Whether the latest update tried to focus and failed. */
  predicate Failed(earlier: seq<Update>, results: seq<bool>)
    requires |results| == |earlier|
  {
    earlier != [] && results[|results| - 1] && earlier[|earlier| - 1].throws
  }

  /** Whether an update refocuses after the `earlier` ones. */
  ghost predicate Refocuses(fix: Fixed, earlier: seq<Update>, afterFailure: bool, u: Update) {
    Places(fix, u.rows) != [] && (earlier == [] || afterFailure || Changed(fix, u, earlier[|earlier| - 1]))
  }

  /** Which updates refocus the map: the first located rows, any after a failed focus, and otherwise a changed view. */
  ghost function Refocusing(fix: Fixed, updates: seq<Update>): (r: seq<bool>)
    ensures |r| == |updates|
  {
    if updates == [] then []
    else
      var earlier := updates[..|updates| - 1];
      var results := Refocusing(fix, earlier);
      results + [Refocuses(fix, earlier, Failed(earlier, results), updates[|updates| - 1])]
  }

  /** The token the map remembers after an update. */
  function Remembered(fix: Fixed, earlier: seq<Update>, results: seq<bool>): string
    requires |results| == |earlier|
  {
    if earlier == [] || Failed(earlier, results) then "" else TokenOf(fix, earlier[|earlier| - 1])
  }

  lemma DecisionIsRefocus(fix: Fixed, earlier: seq<Update>, results: seq<bool>, u: Update)
    requires PlainText(fix) && |results| == |earlier|
    ensures Places(fix, u.rows) != [] && TokenOf(fix, u) != Remembered(fix, earlier, results)
      <==> Refocuses(fix, earlier, Failed(earlier, results), u)
  {
    if Places(fix, u.rows) != [] {
      LocatedTokenNonEmpty(fix, u);
      if earlier != [] {
        ChangedIsToken(fix, u, earlier[|earlier| - 1]);
      }
    }
  }

  lemma RefocusingStep(fix: Fixed, updates: seq<Update>, i: nat)
    requires i < |updates|
    ensures var earlier, results := updates[..i], Refocusing(fix, updates[..i]);
      Refocusing(fix, updates[..i + 1]) == results + [Refocuses(fix, earlier, Failed(earlier, results), updates[i])]
  {
    assert updates[..i + 1][..i] == updates[..i];
  }

  lemma RememberedStep(fix: Fixed, updates: seq<Update>, i: nat, results: seq<bool>, focused: bool)
    requires i < |updates| && |results| == i
    ensures Remembered(fix, updates[..i + 1], results + [focused])
      == if focused && updates[i].throws then "" else TokenOf(fix, updates[i])
  {
  }

  /** Over any sequence of updates the map refocuses as `Refocusing` says. */
  method RunUpdates(fix: Fixed, updates: seq<Update>) returns (focused: seq<bool>)
    requires PlainText(fix)
    ensures focused == Refocusing(fix, updates)
  {
    var memory := new FocusMemory(fix);
    focused := [];
    for i := 0 to |updates|
      invariant memory.fix == fix && focused == Refocusing(fix, updates[..i])
      invariant memory.last == Remembered(fix, updates[..i], focused)
    {
      DecisionIsRefocus(fix, updates[..i], focused, updates[i]);
      RefocusingStep(fix, updates, i);
      var now := memory.Decide(updates[i]);
      RememberedStep(fix, updates, i, focused, now);
      focused := focused + [now];
    }
    assert updates[..|updates|] == updates;
  }

  // ------------------------------------------------------------------ the page that shows the map

  /** What the live operations page shows: a group, a mask of classes, and a search text. */
  datatype Page = Page(groupId: string, mask: string, query: string)

  /** A vehicle's other texts the search looks into: its user name and its driver. */
  type OtherTexts = int -> seq<string>

  /** `toLowerCase`. */
  type Lower = string -> string

  function SearchText(lower: Lower, page: Page): string {
    lower(Ndjson.Trim(page.query))
  }

  predicate Matches(lower: Lower, others: OtherTexts, q: string, row: StatusRow) {
    q == "" || Ndjson.Includes(lower(row.name), q) || Ndjson.Includes(IdText(row.id), q)
    || exists i :: 0 <= i < |others(row.id)| && Ndjson.Includes(lower(others(row.id)[i]), q)
  }

  /** The rows of the mask's classes that the search lets through. */
  function ShownRows(lower: Lower, others: OtherTexts, page: Page, rows: seq<StatusRow>): seq<StatusRow> {
    FlatMap(row => if Matches(lower, others, SearchText(lower, page), row) then [row] else [], rows)
  }

  function FitKey(page: Page): string {
    page.groupId + "|" + (page.mask + "|" + page.query)
  }

  function PageUpdate(lower: Lower, others: OtherTexts, page: Page, rows: seq<StatusRow>): Update {
    Update.Update(FitKey(page), ShownRows(lower, others, page, rows), false)
  }

  /** For every two states of the page, whatever is typed: a change goes unnoticed exactly when a key masks it. */
  lemma PageChangeMissedIff(fix: Fixed, lower: Lower, others: OtherTexts,
                            p: Page, rows: seq<StatusRow>, p': Page, rows': seq<StatusRow>)
    requires PlainText(fix)
    requires '|' !in p.groupId && ':' !in p.groupId && '|' !in p'.groupId && ':' !in p'.groupId
    ensures var u, v := PageUpdate(lower, others, p, rows), PageUpdate(lower, others, p', rows');
      TokenOf(fix, u) == TokenOf(fix, v) <==> !ViewChanged(fix, u, v) || Masked(fix, u, v)
  {
    var u, v := PageUpdate(lower, others, p, rows), PageUpdate(lower, others, p', rows');
    PageKeysFramed(p.groupId, p.mask + "|" + p.query);
    PageKeysFramed(p'.groupId, p'.mask + "|" + p'.query);
    TokensAlikeIff(fix, u.fitKey, u.rows, v.fitKey, v.rows);
  }

  /** Typed after the bar, the text of a row takes the place of that row in the token. */
  lemma TokenCollision(fix: Fixed, gone: StatusRow, stays: StatusRow)
    requires Located(gone) && Located(stays) && gone.id == 5 && stays.id == 6
    ensures var key := "0|11111|";
      var typed := key + "|" + PlaceText(Place(5, fix(gone.lat.value), fix(gone.lon.value)));
      Token(fix, key, [gone, stays]) == Token(fix, typed, [stays]) && key != typed
  {
    var key := "0|11111|";
    var t, u := PlaceText(Place(5, fix(gone.lat.value), fix(gone.lon.value))),
                PlaceText(Place(6, fix(stays.lat.value), fix(stays.lon.value)));
    var typed := key + "|" + t;
    assert t[0] == '5' && u[0] == '6' && key[0] == '0' && typed[0] == '0';
    assert [gone, stays][1..] == [stays] && [stays][1..] == [];
    assert Places(fix, [stays])
      == [Place(6, fix(stays.lat.value), fix(stays.lon.value))] + Places(fix, []);
    assert Map(PlaceText, Places(fix, [stays])) == [u];
    assert Map(PlaceText, Places(fix, [gone, stays])) == [t, u];
    SortedAlready(key, [t, u]);
    SortedAlready(typed, [u]);
    assert [key, t, u][1..] == [t, u] && [t, u][1..] == [u] && [typed, u][1..] == [u];
    JoinedAlike(key, t, u);
  }

  lemma JoinedAlike(key: string, t: string, u: string)
    ensures Join([key, t, u]) == Join([key + "|" + t, u])
  {
    assert [key, t, u][1..] == [t, u] && [t, u][1..] == [u] && [key + "|" + t, u][1..] == [u];
    assert key + "|" + (t + "|" + u) == (key + "|" + t) + "|" + u;
  }

  /** A text below one or two ascending texts is sorted first. */
  lemma SortedAlready(first: string, rest: seq<string>)
    requires first != "" && 1 <= |rest| <= 2 && forall i :: 0 <= i < |rest| ==> rest[i] != "" && first[0] < rest[i][0]
    requires |rest| == 2 ==> rest[0][0] < rest[1][0]
    ensures Sort(LE, [first] + rest) == [first] + rest
  {
    assert ([first] + rest)[1..] == rest;
    assert Sort(LE, []) == [];
    if |rest| == 1 {
      assert rest[1..] == [] && Sort(LE, rest) == rest;
    } else {
      assert rest[1..] == [rest[1]] && [rest[1]][1..] == [];
      assert Sort(LE, [rest[1]]) == [rest[1]];
      assert Sort(LE, rest) == rest;
    }
  }

  /**
   It does happen on the page: one vehicle disappears because its place text is typed into the search,
   and another stays because its name holds that text. The map does not move.
   */
  lemma PageCollision(fix: Fixed, lower: Lower, others: OtherTexts, gone: StatusRow, stays: StatusRow)
    requires Located(gone) && Located(stays) && gone.id == 5 && stays.id == 6 && lower("") == ""
    requires var typed := Page("0", "11111", "|" + PlaceText(Place(5, fix(gone.lat.value), fix(gone.lon.value))));
      && Ndjson.Includes(lower(stays.name), SearchText(lower, typed))
      && !Matches(lower, others, SearchText(lower, typed), gone)
    ensures var all, typed := Page("0", "11111", ""),
                              Page("0", "11111", "|" + PlaceText(Place(5, fix(gone.lat.value), fix(gone.lon.value))));
      var u, v := PageUpdate(lower, others, all, [gone, stays]), PageUpdate(lower, others, typed, [gone, stays]);
      && u.rows == [gone, stays] && v.rows == [stays] && ViewChanged(fix, u, v)
      && TokenOf(fix, u) == TokenOf(fix, v)
  {
    var t := PlaceText(Place(5, fix(gone.lat.value), fix(gone.lon.value)));
    var all, typed := Page("0", "11111", ""), Page("0", "11111", "|" + t);
    assert Ndjson.Trim("") == "";
    ShownTwo(lower, others, all, gone, stays);
    ShownTwo(lower, others, typed, gone, stays);
    TokenCollision(fix, gone, stays);
    assert FitKey(all) == "0|11111|" && FitKey(typed) == "0|11111|" + "|" + t;
    assert |FitKey(all)| < |FitKey(typed)|;
  }

  lemma ShownTwo(lower: Lower, others: OtherTexts, page: Page, a: StatusRow, b: StatusRow)
    ensures var q := SearchText(lower, page);
      ShownRows(lower, others, page, [a, b])
      == (if Matches(lower, others, q, a) then [a] else []) + (if Matches(lower, others, q, b) then [b] else [])
  {
    var f := (row: StatusRow) => if Matches(lower, others, SearchText(lower, page), row) then [row] else [];
    assert [a, b][1..] == [b] && [b][1..] == [];
    assert FlatMap(f, [a, b]) == f(a) + (f(b) + FlatMap(f, []));
    assert ShownRows(lower, others, page, [a, b]) == FlatMap(f, [a, b]);
  }
}
