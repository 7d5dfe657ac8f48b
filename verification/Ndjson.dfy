/**
 The chunked NDJSON reader of the user-day batch: cutting a character stream into lines, peeking
 at a line's key, and turning the stashed lines into rows by key.
 JSON parsing and point normalisation are an oracle `parse`; `None` is a line that does not parse
 or has no string key.
 */
module Ndjson {
  import opened Seqs
  import opened Tracks

  /** A key announced to the progress accounting. */
  datatype Note = Note(key: string, failed: bool)
  datatype ParsedRow = ParsedRow(key: string, failed: bool, rows: seq<DayTrackRow>)
  /** What the loader can see of one line: the cheap peek and the full parse. */
  datatype Line = Line(peek: Option<Note>, row: Option<ParsedRow>)

  // ------------------------------------------------------------------ strings

  /** White space and line terminators removed by `String.prototype.trim`. */
  predicate IsSpace(c: char) {
    c in ['\t', '\n', '\U{000B}', '\U{000C}', '\r', ' ', '\U{00A0}', '\U{1680}', '\U{2028}', '\U{2029}',
          '\U{202F}', '\U{205F}', '\U{3000}', '\U{FEFF}'] || '\U{2000}' <= c <= '\U{200A}'
  }

  function TrimStart(s: string): string {
    if s != "" && IsSpace(s[0]) then TrimStart(s[1..]) else s
  }

  function TrimEnd(s: string): string {
    if s != "" && IsSpace(s[|s| - 1]) then TrimEnd(s[..|s| - 1]) else s
  }

  function Trim(s: string): string {
    TrimEnd(TrimStart(s))
  }

  /** The white space of section 22.1.3.32 of ECMA-262, by code point. */
  ghost predicate White(c: char) {
    var n := c as int;
    9 <= n <= 13 || n == 32 || n == 160 || n == 5760 || 8192 <= n <= 8202 || n == 8232 || n == 8233 || n == 8239
    || n == 8287 || n == 12288 || n == 65279
  }

  lemma SpaceIsWhite(c: char)
    ensures IsSpace(c) <==> White(c)
  {
  }

  /** `t` is `s` without the white space at its ends. */
  ghost predicate Trimmed(s: string, t: string, i: nat) {
    && i + |t| <= |s| && t == s[i..i + |t|]
    && (forall k :: 0 <= k < i ==> White(s[k])) && (forall k :: i + |t| <= k < |s| ==> White(s[k]))
    && (t != "" ==> !White(t[0]) && !White(t[|t| - 1]))
  }

  lemma {:induction false} TrimStartDrops(s: string) returns (i: nat)
    ensures i <= |s| && TrimStart(s) == s[i..] && forall k :: 0 <= k < i ==> White(s[k])
    ensures TrimStart(s) != "" ==> !White(TrimStart(s)[0])
  {
    if s != "" {
      SpaceIsWhite(s[0]);
    }
    if s != "" && IsSpace(s[0]) {
      i := TrimStartDrops(s[1..]);
      i := i + 1;
      assert forall k :: 1 <= k < i ==> s[k] == s[1..][k - 1];
    } else {
      i := 0;
    }
  }

  lemma {:induction false} TrimEndDrops(s: string)
    ensures var t := TrimEnd(s); |t| <= |s| && t == s[..|t|] && forall k :: |t| <= k < |s| ==> White(s[k])
    ensures TrimEnd(s) != "" ==> !White(TrimEnd(s)[|TrimEnd(s)| - 1])
  {
    if s != "" {
      SpaceIsWhite(s[|s| - 1]);
      if IsSpace(s[|s| - 1]) {
        TrimEndDrops(s[..|s| - 1]);
      }
    }
  }

  /** Trimming drops all white space at the two ends and nothing else. */
  lemma TrimDropsEnds(s: string) returns (i: nat)
    ensures Trimmed(s, Trim(s), i)
  {
    i := TrimStartDrops(s);
    var rest, t := TrimStart(s), Trim(s);
    TrimEndDrops(rest);
    assert t == s[i..][..|t|];
    assert forall k :: i <= k < |s| ==> s[k] == rest[k - i];
  }

  /** `String.prototype.indexOf` for one character, from position `start`. */
  function IndexOf(s: string, c: char, start: nat): (r: int)
    ensures r == -1 ==> forall i :: start <= i < |s| ==> s[i] != c
    ensures r != -1 ==> start <= r < |s| && s[r] == c && forall i :: start <= i < r ==> s[i] != c
    decreases |s| - start
  {
    if start >= |s| then -1
    else if s[start] == c then start
    else IndexOf(s, c, start + 1)
  }

  ghost predicate OccursAt(s: string, pattern: string, i: int) {
    0 <= i <= |s| - |pattern| && s[i..i + |pattern|] == pattern
  }

  /** `String.prototype.includes`. */
  predicate Includes(s: string, pattern: string)
    ensures Includes(s, pattern) <==> exists i :: OccursAt(s, pattern, i)
  {
    if pattern <= s then
      assert OccursAt(s, pattern, 0);
      true
    else if s == "" then
      assert forall i :: OccursAt(s, pattern, i) ==> i == 0;
      false
    else
      assert (exists i :: OccursAt(s, pattern, i)) <==> exists i :: OccursAt(s[1..], pattern, i) by {
        if i :| OccursAt(s, pattern, i) {
          assert i != 0;
          assert s[1..][i - 1..i - 1 + |pattern|] == s[i..i + |pattern|];
          assert OccursAt(s[1..], pattern, i - 1);
        }
        if i :| OccursAt(s[1..], pattern, i) {
          assert s[i + 1..i + 1 + |pattern|] == s[1..][i..i + |pattern|];
          assert OccursAt(s, pattern, i + 1);
        }
      }
      Includes(s[1..], pattern)
  }

  // ------------------------------------------------------------------ the lines of a text

  /** Reference: split the whole text on newline; always at least one piece. */
  function Split(text: string): (r: seq<string>)
    ensures |r| >= 1
  {
    if text == "" then [""]
    else if text[0] == '\n' then [""] + Split(text[1..])
    else
      var rest := Split(text[1..]);
      [[text[0]] + rest[0]] + rest[1..]
  }

  /** Trim every piece and drop the empty ones. */
  function Clean(pieces: seq<string>): seq<string> {
    if pieces == [] then []
    else (if Trim(pieces[0]) == "" then [] else [Trim(pieces[0])]) + Clean(pieces[1..])
  }

  function Lines(text: string): seq<string> {
    Clean(Split(text))
  }

  /** The pieces with a line feed between each two. */
  function Joined(pieces: seq<string>): string {
    if pieces == [] then "" else if |pieces| == 1 then pieces[0] else pieces[0] + "\n" + Joined(pieces[1..])
  }

  lemma JoinedCons(c: char, pieces: seq<string>)
    requires pieces != []
    ensures Joined([[c] + pieces[0]] + pieces[1..]) == [c] + Joined(pieces)
  {
    var more := [[c] + pieces[0]] + pieces[1..];
    assert more[1..] == pieces[1..];
  }

  /** Splitting takes the text apart at every line feed and nowhere else. */
  lemma {:induction false} SplitTakesApart(text: string)
    ensures Joined(Split(text)) == text
    ensures forall i :: 0 <= i < |Split(text)| ==> '\n' !in Split(text)[i]
  {
    if text != "" {
      SplitTakesApart(text[1..]);
      var rest := Split(text[1..]);
      if text[0] == '\n' {
        assert ([""] + rest)[1..] == rest;
      } else {
        JoinedCons(text[0], rest);
      }
    }
  }

  /** What a piece leaves as a line: itself trimmed, unless that is empty. */
  function LineOf(piece: string): Option<string> {
    if Trim(piece) == "" then None else Some(Trim(piece))
  }

  /** The lines are, in order, the pieces trimmed, without the empty ones. */
  lemma {:induction false} CleanKeeps(pieces: seq<string>) returns (at: seq<nat>)
    ensures KeptAt(LineOf, pieces, Clean(pieces), at)
  {
    if pieces == [] {
      at := [];
    } else {
      var init, last := pieces[..|pieces| - 1], pieces[|pieces| - 1];
      at := CleanKeeps(init);
      assert pieces == init + [last];
      CleanConcat(init, [last]);
      assert Clean([last]) == (if Trim(last) == "" then [] else [Trim(last)]) + Clean([]);
      if Trim(last) == "" {
        KeptNone(LineOf, init, Clean(init), at, last);
        assert Clean(init) + [] == Clean(init);
      } else {
        KeptMore(LineOf, init, Clean(init), at, last);
        at := at + [|init|];
      }
    }
  }

  lemma {:induction false} CleanConcat(a: seq<string>, b: seq<string>)
    ensures Clean(a + b) == Clean(a) + Clean(b)
  {
    if a == [] {
      assert a + b == b;
    } else {
      assert (a + b)[1..] == a[1..] + b;
      CleanConcat(a[1..], b);
    }
  }

  lemma {:induction false} SplitAtNewline(text: string, nl: nat)
    requires nl < |text| && text[nl] == '\n' && forall i :: 0 <= i < nl ==> text[i] != '\n'
    ensures Split(text) == [text[..nl]] + Split(text[nl + 1..])
  {
    if nl > 0 {
      SplitAtNewline(text[1..], nl - 1);
      assert [text[0]] + text[1..][..nl - 1] == text[..nl];
    }
  }

  lemma {:induction false} SplitUnbroken(text: string)
    requires forall i :: 0 <= i < |text| ==> text[i] != '\n'
    ensures Split(text) == [text]
  {
    if text != "" {
      SplitUnbroken(text[1..]);
      assert [text[0]] + text[1..] == text;
    }
  }

  lemma HeadStays<T>(head: T, tail: seq<T>, more: seq<T>)
    requires tail != []
    ensures var s := [head] + tail;
      s[..|s| - 1] + more == [head] + (tail[..|tail| - 1] + more) && s[|s| - 1] == tail[|tail| - 1]
  {
  }

  lemma SplitPoint(text: string, more: string, nl: nat)
    requires nl < |text|
    ensures (text + more)[nl + 1..] == text[nl + 1..] + more && (text + more)[..nl] == text[..nl]
  {
  }

  /** Appending text only touches the last, unterminated piece. */
  lemma {:induction false} SplitAppend(text: string, more: string)
    ensures var s := Split(text);
      Split(text + more) == s[..|s| - 1] + Split(s[|s| - 1] + more)
    decreases |text|
  {
    var nl := IndexOf(text, '\n', 0);
    if nl == -1 {
      SplitUnbroken(text);
    } else {
      var rest := text[nl + 1..];
      SplitAtNewline(text, nl);
      SplitAtNewline(text + more, nl);
      SplitPoint(text, more, nl);
      SplitAppend(rest, more);
      HeadStays(text[..nl], Split(rest), Split(Split(rest)[|Split(rest)| - 1] + more));
    }
  }

  /** One more piece arrives: the text so far is still the cut pieces plus what the buffer holds. */
  lemma PieceArrives(pieces: seq<string>, i: nat, cut: seq<string>, buf: string)
    requires i < |pieces| && Split(Flatten(pieces[..i])) == cut + [buf]
    ensures Split(Flatten(pieces[..i + 1])) == cut + Split(buf + pieces[i])
  {
    assert pieces[..i + 1] == pieces[..i] + [pieces[i]];
    FlattenSnoc(pieces[..i], pieces[i]);
    SplitAppend(Flatten(pieces[..i]), pieces[i]);
    assert (cut + [buf])[..|cut|] == cut;
  }

  /** A complete line moves from the buffer to the cut pieces. */
  lemma LineLeaves(whole: string, cut: seq<string>, buf: string, nl: nat)
    requires Split(whole) == cut + Split(buf) && nl == IndexOf(buf, '\n', 0)
    ensures Split(whole) == (cut + [buf[..nl]]) + Split(buf[nl + 1..])
  {
    SplitAtNewline(buf, nl);
  }

  function Kept(line: string): seq<string> {
    if line == "" then [] else [line]
  }

  function KeptNotes(line: string): seq<Note> {
    if line == "" then [] else NotesOf(PeekUserDayNdjson(line))
  }

  /** Stashing a trimmed line unless it is empty keeps the stash clean and peeked. */
  lemma StashStep(cut: seq<string>, piece: string)
    ensures Clean(cut + [piece]) == Clean(cut) + Kept(Trim(piece))
    ensures Peeks(Clean(cut) + Kept(Trim(piece)))
      == Peeks(Clean(cut)) + KeptNotes(Trim(piece))
  {
    CleanConcat(cut, [piece]);
    assert Clean([piece]) == Kept(Trim(piece)) + Clean([]);
    if Trim(piece) != "" {
      PeeksConcat(Clean(cut), [Trim(piece)]);
      assert Peeks([Trim(piece)]) == KeptNotes(Trim(piece)) + Peeks([]);
    } else {
      assert Clean(cut) + [] == Clean(cut);
    }
  }

  /** The pieces cut off so far have been added to what was kept and told before. */
  ghost predicate Moved(cut: seq<string>, kept: seq<string>, told: seq<Note>, stashed: seq<string>, announced: seq<Note>) {
    stashed == kept + Clean(cut) && announced == told + Peeks(Clean(cut))
  }

  lemma CutStep(cut: seq<string>, piece: string, kept: seq<string>, told: seq<Note>, stashed: seq<string>, announced: seq<Note>)
    requires Moved(cut, kept, told, stashed, announced)
    ensures Moved(cut + [piece], kept, told, stashed + Kept(Trim(piece)), announced + KeptNotes(Trim(piece)))
  {
    StashStep(cut, piece);
  }

  /** Stash a trimmed line unless it is empty, peeking at it. */
  method Stash(line: string, kept: seq<string>, told: seq<Note>) returns (stashed: seq<string>, announced: seq<Note>)
    ensures stashed == kept + Kept(line) && announced == told + KeptNotes(line)
  {
    stashed, announced := kept, told;
    if line != "" {
      announced := announced + NotesOf(PeekUserDayNdjson(line));
      stashed := stashed + [line];
    }
  }

  function AllButLast<T>(s: seq<T>): seq<T>
    requires s != []
  {
    s[..|s| - 1]
  }

  lemma AllButLastSnoc<T>(init: seq<T>, last: T)
    ensures AllButLast(init + [last]) == init && (init + [last])[|init|] == last
  {
  }

  /** The inner loop: move every complete line from the buffer to the stash, peeking at it once. */
  method CutLines(buffered: string, kept: seq<string>, told: seq<Note>)
    returns (buf: string, stashed: seq<string>, announced: seq<Note>)
    ensures Moved(AllButLast(Split(buffered)), kept, told, stashed, announced)
    ensures Split(buffered) == AllButLast(Split(buffered)) + [buf]
  {
    buf, stashed, announced := buffered, kept, told;
    ghost var cut: seq<string> := [];
    var nl := IndexOf(buf, '\n', 0);
    while nl >= 0
      invariant nl == IndexOf(buf, '\n', 0)
      invariant Split(buffered) == cut + Split(buf) && Moved(cut, kept, told, stashed, announced)
      decreases |buf|
    {
      LineLeaves(buffered, cut, buf, nl);
      CutStep(cut, buf[..nl], kept, told, stashed, announced);
      cut := cut + [buf[..nl]];
      stashed, announced := Stash(Trim(buf[..nl]), stashed, announced);
      buf := buf[nl + 1..];
      nl := IndexOf(buf, '\n', 0);
    }
    SplitUnbroken(buf);
    AllButLastSnoc(cut, buf);
  }

  /** State of the reader after consuming `text`: pieces cut off, text still buffered, lines kept. */
  ghost predicate ReadSoFar(text: string, cut: seq<string>, buf: string, stashed: seq<string>, announced: seq<Note>) {
    Split(text) == cut + [buf] && stashed == Clean(cut) && announced == Peeks(stashed)
  }

  lemma ReadStep(cut: seq<string>, more: seq<string>, stashed: seq<string>, announced: seq<Note>)
    requires Moved(more, Clean(cut), Peeks(Clean(cut)), stashed, announced)
    ensures stashed == Clean(cut + more) && announced == Peeks(stashed)
  {
    CleanConcat(cut, more);
    PeeksConcat(Clean(cut), Clean(more));
  }

  /**
   The reading loop. However the text is cut into pieces, the stashed lines are the lines of the
   whole text, the unterminated last one included, and each is peeked at once, in order.
   */
  method ReadStream(pieces: seq<string>) returns (stashed: seq<string>, announced: seq<Note>)
    ensures stashed == Lines(Flatten(pieces))
    ensures announced == Peeks(stashed)
  {
    stashed, announced := [], [];
    var buf := "";
    ghost var cut: seq<string> := [];
    for i := 0 to |pieces|
      invariant ReadSoFar(Flatten(pieces[..i]), cut, buf, stashed, announced)
    {
      PieceArrives(pieces, i, cut, buf);
      ghost var more := AllButLast(Split(buf + pieces[i]));
      buf, stashed, announced := CutLines(buf + pieces[i], stashed, announced);
      ReadStep(cut, more, stashed, announced);
      ConcatAssoc(cut, more, [buf]);
      cut := cut + more;
    }
    assert pieces[..|pieces|] == pieces;
    StashStep(cut, buf);
    stashed, announced := Stash(Trim(buf), stashed, announced);
  }

  // ------------------------------------------------------------------ peeking at a line

  const KEY_PREFIX := "{\"key\":\""
  const FAILED_MARK := "\"failed\":true"

  /** Read the key of a line without parsing the points. */
  function PeekUserDayNdjson(line: string): Option<Note> {
    if !(KEY_PREFIX <= line) then None
    else
      var end := IndexOf(line, '\"', |KEY_PREFIX|);
      if end <= |KEY_PREFIX| then None
      else Some(Note(line[|KEY_PREFIX|..end], Includes(line, FAILED_MARK)))
  }

  /** The line the server writes for one vehicle-day (server/user-day-tracks.mjs). */
  function WrittenLine(key: string, points: string, failed: bool): string {
    if failed then "{\"key\":\"" + key + "\"" + ",\"failed\":true}"
    else "{\"key\":\"" + key + "\"" + (",\"points\":" + points + "}")
  }

  /** A day key needs no JSON escaping. */
  predicate PlainKey(key: string) {
    key != "" && forall i :: 0 <= i < |key| ==> key[i] != '\"' && key[i] != '\\'
  }

  lemma PeekKey(line: string, key: string, rest: string)
    requires PlainKey(key) && line == "{\"key\":\"" + key + "\"" + rest
    ensures PeekUserDayNdjson(line) == Some(Note(key, Includes(line, "\"failed\":true")))
  {
    assert line[..|KEY_PREFIX|] == KEY_PREFIX;
    var end := |KEY_PREFIX| + |key|;
    assert line[end] == '\"';
    forall i | |KEY_PREFIX| <= i < end ensures line[i] != '\"' {
      assert line[i] == key[i - |KEY_PREFIX|];
    }
    assert line[|KEY_PREFIX|..end] == key;
  }

  /** No occurrence of the mark starts before the points of a written line. */
  lemma MarkNotInHead(key: string, points: string, i: int)
    requires PlainKey(key)
    requires OccursAt(WrittenLine(key, points, false), FAILED_MARK, i)
    ensures i >= |KEY_PREFIX| + |key| + 11
  {
    var line := WrittenLine(key, points, false);
    var q := |KEY_PREFIX| + |key|;
    var mark := line[i..i + |FAILED_MARK|];
    assert line[i] == mark[0] == '\"' && line[i + 1] == mark[1] == 'f';
    assert line[i + 7] == mark[7] == '\"' && line[i + 8] == mark[8] == ':';
    assert forall k :: 0 <= k < |KEY_PREFIX| ==> line[k] == KEY_PREFIX[k];
    assert forall k :: |KEY_PREFIX| <= k < q ==> line[k] == key[k - |KEY_PREFIX|];
    assert line[q..q + 11] == "\",\"points\":";
    assert forall k :: q <= k < q + 11 ==> line[k] == "\",\"points\":"[k - q];
  }

  lemma OccursInside(head: string, pattern: string, rest: string)
    ensures Includes(head + pattern + rest, pattern)
  {
    var s := head + pattern + rest;
    assert s[|head|..|head| + |pattern|] == pattern;
    assert OccursAt(s, pattern, |head|);
  }

  lemma PeekAgreesOnFailure(key: string, points: string)
    requires PlainKey(key)
    ensures PeekUserDayNdjson(WrittenLine(key, points, true)) == Some(Note(key, true))
  {
    var line, head := WrittenLine(key, points, true), KEY_PREFIX + key + "\",";
    assert line == head + FAILED_MARK + "}";
    OccursInside(head, FAILED_MARK, "}");
    PeekKey(line, key, "," + FAILED_MARK + "}");
  }

  lemma MarkOnlyInPoints(key: string, points: string)
    requires PlainKey(key)
    ensures Includes(WrittenLine(key, points, false), FAILED_MARK) <==> Includes(points, FAILED_MARK)
  {
    var line := WrittenLine(key, points, false);
    var head := |KEY_PREFIX| + |key| + 11;
    assert line[head..] == points + "}";
    if i :| OccursAt(line, FAILED_MARK, i) {
      MarkNotInHead(key, points, i);
      assert line[i + |FAILED_MARK| - 1] == line[i..i + |FAILED_MARK|][|FAILED_MARK| - 1] == 'e';
      assert points[i - head..i - head + |FAILED_MARK|] == line[i..i + |FAILED_MARK|];
      assert OccursAt(points, FAILED_MARK, i - head);
    }
    if i :| OccursAt(points, FAILED_MARK, i) {
      assert line[head + i..head + i + |FAILED_MARK|] == points[i..i + |FAILED_MARK|];
      assert OccursAt(line, FAILED_MARK, head + i);
    }
  }

  /**
   The peek agrees with the line the server wrote exactly when the line is a failure or the
   failure mark does not appear inside the points.
   */
  lemma PeekAgreesIff(key: string, points: string, failed: bool)
    requires PlainKey(key)
    ensures PeekUserDayNdjson(WrittenLine(key, points, failed)) == Some(Note(key, failed))
      <==> failed || !Includes(points, FAILED_MARK)
  {
    if failed {
      PeekAgreesOnFailure(key, points);
    } else {
      var line := WrittenLine(key, points, false);
      PeekKey(line, key, ",\"points\":" + points + "}");
      MarkOnlyInPoints(key, points);
    }
  }

  // ------------------------------------------------------------------ announcing and taking lines

  function NotesOf(note: Option<Note>): seq<Note> {
    if note.Some? then [note.value] else []
  }

  /** What the read phase announces. */
  function Peeks(lines: seq<string>): seq<Note> {
    if lines == [] then [] else NotesOf(PeekUserDayNdjson(lines[0])) + Peeks(lines[1..])
  }

  lemma {:induction false} PeeksConcat(a: seq<string>, b: seq<string>)
    ensures Peeks(a + b) == Peeks(a) + Peeks(b)
  {
    if a == [] {
      assert a + b == b;
    } else {
      assert (a + b)[1..] == a[1..] + b;
      PeeksConcat(a[1..], b);
    }
  }

  function View(line: string, parse: string -> Option<ParsedRow>): Line {
    Line(PeekUserDayNdjson(line), parse(line))
  }

  /** What the parse phase announces for a line: only what the peek left out. */
  function LateNotes(line: Line): seq<Note> {
    if line.row.Some? && line.peek.None? then [Note(line.row.value.key, line.row.value.failed)] else []
  }

  /** `byKey` after the parse phase: the last good line of each key. */
  function ByKey(lines: seq<Line>): (m: map<string, seq<DayTrackRow>>) {
    if lines == [] then map[]
    else
      var last := lines[|lines| - 1].row;
      var before := ByKey(lines[..|lines| - 1]);
      if last.Some? && !last.value.failed then before[last.value.key := last.value.rows] else before
  }

  /** `failed` after the parse phase. */
  function Refused(lines: seq<Line>): seq<string> {
    if lines == [] then []
    else
      var last := lines[|lines| - 1].row;
      Refused(lines[..|lines| - 1]) + (if last.Some? && last.value.failed then [last.value.key] else [])
  }

  predicate GoodLine(line: Line, key: string) {
    line.row.Some? && !line.row.value.failed && line.row.value.key == key
  }

  predicate IsLastGood(lines: seq<Line>, i: nat, key: string)
    requires i < |lines|
  {
    GoodLine(lines[i], key) && forall j :: i < j < |lines| ==> !GoodLine(lines[j], key)
  }

  predicate FailedLine(line: Line, key: string) {
    line.row.Some? && line.row.value.failed && line.row.value.key == key
  }

  /** A key has rows exactly when some line gave them, and the last such line wins. */
  lemma {:induction false} ByKeyMeaning(lines: seq<Line>, key: string)
    ensures key in ByKey(lines) <==> exists i :: 0 <= i < |lines| && GoodLine(lines[i], key)
    ensures forall i | 0 <= i < |lines| && IsLastGood(lines, i, key) :: ByKey(lines)[key] == lines[i].row.value.rows
  {
    if lines != [] {
      var n := |lines| - 1;
      ByKeyMeaning(lines[..n], key);
      if !GoodLine(lines[n], key) {
        assert forall i :: 0 <= i < n ==> lines[..n][i] == lines[i];
        assert key in ByKey(lines) <==> key in ByKey(lines[..n]);
      }
    }
  }

  lemma {:induction false} RefusedMeaning(lines: seq<Line>, key: string)
    ensures key in Refused(lines) <==> exists i :: 0 <= i < |lines| && FailedLine(lines[i], key)
  {
    if lines != [] {
      var n := |lines| - 1;
      RefusedMeaning(lines[..n], key);
      assert forall i :: 0 <= i < n ==> lines[..n][i] == lines[i];
    }
  }

  /** The parse phase over the stashed lines. */
  method ParseStashed(lines: seq<string>, parse: string -> Option<ParsedRow>)
    returns (byKey: map<string, seq<DayTrackRow>>, failed: seq<string>, announced: seq<Note>)
    ensures var views := Map(line => View(line, parse), lines);
      byKey == ByKey(views) && failed == Refused(views) && announced == FlatMap(LateNotes, views)
  {
    byKey, failed, announced := map[], [], [];
    ghost var views := Map(line => View(line, parse), lines);
    for i := 0 to |lines|
      invariant byKey == ByKey(views[..i]) && failed == Refused(views[..i])
      invariant announced == FlatMap(LateNotes, views[..i])
    {
      assert views[..i + 1][..i] == views[..i];
      assert views[..i + 1] == views[..i] + [views[i]];
      FlatMapConcat(LateNotes, views[..i], [views[i]]);
      assert FlatMap(LateNotes, [views[i]]) == LateNotes(views[i]) + FlatMap(LateNotes, []);
      var peek := PeekUserDayNdjson(lines[i]);
      var row := parse(lines[i]);
      if row.Some? {
        if peek.None? {
          announced := announced + [Note(row.value.key, row.value.failed)];
        }
        if row.value.failed {
          failed := failed + [row.value.key];
        } else {
          byKey := byKey[row.value.key := row.value.rows];
        }
      }
    }
    assert views[..|lines|] == views;
  }

  /** The one announcement a line is entitled to, if it peeks or parses to a key. */
  function Entitled(line: Line): seq<Note> {
    if line.peek.Some? then [line.peek.value] else LateNotes(line)
  }

  /** Each line is announced once over the read phase and the parse phase together, never in both. */
  lemma {:induction false} AnnouncedOnce(lines: seq<string>, parse: string -> Option<ParsedRow>)
    ensures var views := Map(line => View(line, parse), lines);
      multiset(Peeks(lines)) + multiset(FlatMap(LateNotes, views)) == multiset(FlatMap(Entitled, views))
  {
    if lines != [] {
      AnnouncedOnce(lines[1..], parse);
      var f := line => View(line, parse);
      assert Map(f, lines)[1..] == Map(f, lines[1..]);
    }
  }

  /** The whole streamed batch: any cutting of the text gives the same answer and announcements. */
  method FetchUserDayStream(pieces: seq<string>, parse: string -> Option<ParsedRow>)
    returns (byKey: map<string, seq<DayTrackRow>>, failed: seq<string>, announced: seq<Note>)
    ensures var views := Map(line => View(line, parse), Lines(Flatten(pieces)));
      byKey == ByKey(views) && failed == Refused(views) && multiset(announced) == multiset(FlatMap(Entitled, views))
  {
    var stashed, early := ReadStream(pieces);
    var late;
    byKey, failed, late := ParseStashed(stashed, parse);
    AnnouncedOnce(stashed, parse);
    announced := early + late;
  }
}
