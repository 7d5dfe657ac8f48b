/**
 The points the server writes into a stream line: JSON text of slimmed points, in which the failure
 mark the client peeks for cannot occur.
 */
module SlimPoints {
  import opened Seqs
  import opened Ndjson
  import UserDays

  // ------------------------------------------------------------------ JSON text

  /** A value; `Num` holds the text of a number. */
  datatype Json = Null | Bool(truth: bool) | Num(text: string) | Str(s: string) | Arr(items: seq<Json>) | Obj(members: seq<Member>)
  datatype Member = Member(name: string, value: Json)

  function Hex(n: nat): char
    requires n < 16
  {
    if n < 10 then '0' + n as char else 'a' + (n - 10) as char
  }

  function EscapeChar(c: char): string {
    if c == '\"' then "\\\""
    else if c == '\\' then "\\\\"
    else if c == '\n' then "\\n"
    else if c == '\r' then "\\r"
    else if c == '\t' then "\\t"
    else if c as int == 8 then "\\b"
    else if c as int == 12 then "\\f"
    else if c < ' ' then "\\u00" + [Hex(c as int / 16), Hex(c as int % 16)]
    else [c]
  }

  function Escape(s: string): string {
    if s == "" then "" else EscapeChar(s[0]) + Escape(s[1..])
  }

  function Quote(s: string): string {
    "\"" + Escape(s) + "\""
  }

  /** `JSON.stringify`. */
  function Text(j: Json): string {
    match j
    case Null => "null"
    case Bool(truth) => if truth then "true" else "false"
    case Num(text) => text
    case Str(s) => Quote(s)
    case Arr(items) => "[" + ItemsText(items)
    case Obj(members) => "{" + MembersText(members)
  }

  /** The items, separated by commas, and the closing bracket. */
  function ItemsText(items: seq<Json>): string {
    if items == [] then "]"
    else Text(items[0]) + if |items| == 1 then "]" else "," + ItemsText(items[1..])
  }

  function MembersText(members: seq<Member>): string {
    if members == [] then "}"
    else (Quote(members[0].name) + ":") + (Text(members[0].value) + if |members| == 1 then "}" else "," + MembersText(members[1..]))
  }

  // ------------------------------------------------------------------ where the mark can be

  /** The part of the failure mark that only a member's name can produce. */
  const NAME_MARK := "\"failed\":"

  ghost predicate Unmarked(s: string) {
    forall i :: !OccursAt(s, NAME_MARK, i)
  }

  /** A name that, quoted, does not end like the mark. */
  predicate FineName(name: string) {
    var q := Quote(name);
    |q| < 8 || q[|q| - 8..] != "\"failed\""
  }

  predicate PlainChar(c: char) {
    c != '\"' && c != '\\' && c >= ' '
  }

  predicate PlainName(s: string) {
    forall i :: 0 <= i < |s| ==> PlainChar(s[i])
  }

  /** No object anywhere in the value has a member named like the mark; numbers are spelt without quotes. */
  predicate FineNames(j: Json) {
    match j
    case Num(text) => text != "" && '\"' !in text
    case Arr(items) => forall i :: 0 <= i < |items| ==> FineNames(items[i])
    case Obj(members) => forall i :: 0 <= i < |members| ==> FineName(members[i].name) && FineNames(members[i].value)
    case _ => true
  }

  /** An occurrence in a concatenation is in one part, or two neighbouring characters of it meet at the seam. */
  lemma WhereInConcat(a: string, b: string, i: int)
    requires OccursAt(a + b, NAME_MARK, i) && a != "" && b != ""
    ensures OccursAt(a, NAME_MARK, i) || OccursAt(b, NAME_MARK, i - |a|)
      || exists k :: 0 <= k < 8 && a[|a| - 1] == NAME_MARK[k] && b[0] == NAME_MARK[k + 1]
  {
    var s := a + b;
    var found := s[i..i + 9];
    if i + 9 <= |a| {
      assert a[i..i + 9] == found;
    } else if i >= |a| {
      assert b[i - |a|..i - |a| + 9] == found;
    } else {
      var k := |a| - 1 - i;
      assert found[k] == s[|a| - 1] == a[|a| - 1] && found[k + 1] == s[|a|] == b[0];
    }
  }

  /** Texts that meet at a bracket, a comma or a colon have no mark across the seam. */
  lemma UnmarkedConcat(a: string, b: string)
    requires Unmarked(a) && Unmarked(b) && a != "" && b != ""
    requires a[|a| - 1] in {'{', '[', ',', ':'} || b[0] in {'}', ']', ','}
    ensures Unmarked(a + b)
  {
    forall i ensures !OccursAt(a + b, NAME_MARK, i) {
      if OccursAt(a + b, NAME_MARK, i) {
        WhereInConcat(a, b, i);
      }
    }
  }

  /** In escaped text every quotation mark follows a backslash. */
  lemma {:induction false} EscapedQuotes(s: string, i: nat)
    requires i < |Escape(s)| && Escape(s)[i] == '\"'
    ensures i > 0 && Escape(s)[i - 1] == '\\'
  {
    var first, rest := EscapeChar(s[0]), Escape(s[1..]);
    if i >= |first| {
      assert Escape(s)[i] == rest[i - |first|];
      EscapedQuotes(s[1..], i - |first|);
      assert rest[i - |first| - 1] == Escape(s)[i - 1];
    } else {
      assert Escape(s)[i] == first[i];
      assert s[0] == '\"';
    }
  }

  /** A mark in a quoted text with a colon behind it ends at that colon. */
  lemma MarkInName(name: string, i: int)
    requires OccursAt(Quote(name) + ":", NAME_MARK, i)
    ensures i == |Quote(name)| - 8
  {
    var q := Quote(name);
    var s := q + ":";
    var found := s[i..i + 9];
    assert s[i + 7] == found[7] == '\"' && s[i + 6] == found[6] == 'd';
    if i + 7 < |q| - 1 {
      assert s[i + 7] == Escape(name)[i + 6] && s[i + 6] == Escape(name)[i + 5];
      EscapedQuotes(name, i + 6);
    }
  }

  lemma MarkSpoilsName(name: string, i: int)
    requires OccursAt(Quote(name) + ":", NAME_MARK, i)
    ensures !FineName(name)
  {
    MarkInName(name, i);
    var q := Quote(name);
    var found := (q + ":")[i..i + 9];
    assert found[..8] == q[i..] && NAME_MARK[..8] == "\"failed\"";
  }

  lemma UnmarkedName(name: string)
    requires FineName(name)
    ensures Unmarked(Quote(name) + ":")
  {
    forall i ensures !OccursAt(Quote(name) + ":", NAME_MARK, i) {
      if OccursAt(Quote(name) + ":", NAME_MARK, i) {
        MarkSpoilsName(name, i);
      }
    }
  }

  lemma MarkCarries(a: string, b: string, i: int)
    requires OccursAt(a, NAME_MARK, i)
    ensures OccursAt(a + b, NAME_MARK, i)
  {
    assert (a + b)[i..i + 9] == a[i..i + 9];
  }

  lemma UnmarkedString(s: string)
    ensures Unmarked(Quote(s))
  {
    forall i ensures !OccursAt(Quote(s), NAME_MARK, i) {
      if OccursAt(Quote(s), NAME_MARK, i) {
        MarkCarries(Quote(s), ":", i);
        MarkInName(s, i);
      }
    }
  }

  lemma MarkHasQuote(s: string, i: int)
    requires OccursAt(s, NAME_MARK, i)
    ensures '\"' in s
  {
    var found := s[i..i + 9];
    assert found[0] == '\"' && found[0] == s[i];
  }

  lemma UnmarkedQuoteless(s: string)
    requires '\"' !in s
    ensures Unmarked(s)
  {
    forall i ensures !OccursAt(s, NAME_MARK, i) {
      if OccursAt(s, NAME_MARK, i) {
        MarkHasQuote(s, i);
      }
    }
  }

  lemma TextNonEmpty(j: Json)
    requires FineNames(j)
    ensures Text(j) != ""
  {
  }

  /** The text of a value with fine names holds no mark. */
  lemma {:induction false} UnmarkedText(j: Json)
    requires FineNames(j)
    ensures Unmarked(Text(j))
  {
    match j
    case Null => UnmarkedQuoteless("null");
    case Bool(_) => UnmarkedQuoteless(Text(j));
    case Num(text) => UnmarkedQuoteless(text);
    case Str(s) => UnmarkedString(s);
    case Arr(items) =>
      UnmarkedItems(items);
      UnmarkedQuoteless("[");
      UnmarkedConcat("[", ItemsText(items));
    case Obj(members) =>
      UnmarkedMembers(members);
      UnmarkedQuoteless("{");
      UnmarkedConcat("{", MembersText(members));
  }

  lemma {:induction false} UnmarkedItems(items: seq<Json>)
    requires forall i :: 0 <= i < |items| ==> FineNames(items[i])
    ensures Unmarked(ItemsText(items)) && ItemsText(items) != ""
  {
    UnmarkedQuoteless("]");
    if items != [] {
      UnmarkedText(items[0]);
      TextNonEmpty(items[0]);
      if |items| == 1 {
        UnmarkedConcat(Text(items[0]), "]");
      } else {
        UnmarkedItems(items[1..]);
        UnmarkedQuoteless(",");
        UnmarkedConcat(",", ItemsText(items[1..]));
        UnmarkedConcat(Text(items[0]), "," + ItemsText(items[1..]));
      }
    }
  }

  lemma {:induction false} UnmarkedMembers(members: seq<Member>)
    requires forall i :: 0 <= i < |members| ==> FineName(members[i].name) && FineNames(members[i].value)
    ensures Unmarked(MembersText(members)) && MembersText(members) != ""
  {
    UnmarkedQuoteless("}");
    if members != [] {
      var name, value := members[0].name, members[0].value;
      UnmarkedName(name);
      UnmarkedText(value);
      TextNonEmpty(value);
      if |members| == 1 {
        UnmarkedConcat(Text(value), "}");
        UnmarkedConcat(Quote(name) + ":", Text(value) + "}");
      } else {
        UnmarkedMembers(members[1..]);
        UnmarkedQuoteless(",");
        UnmarkedConcat(",", MembersText(members[1..]));
        UnmarkedConcat(Text(value), "," + MembersText(members[1..]));
        UnmarkedConcat(Quote(name) + ":", Text(value) + ("," + MembersText(members[1..])));
      }
    }
  }

  lemma {:induction false} PlainEscapes(s: string)
    requires PlainName(s)
    ensures Escape(s) == s && '\"' !in s
  {
    if s != "" {
      PlainEscapes(s[1..]);
      assert s == [s[0]] + s[1..];
    }
  }

  lemma QuotesOutside(name: string, k: nat)
    requires '\"' !in name && k < |name| + 2
    ensures ("\"" + name + "\"")[k] == '\"' <==> k == 0 || k == |name| + 1
  {
    if 0 < k <= |name| {
      assert ("\"" + name + "\"")[k] == name[k - 1];
    }
  }

  lemma OnlyFailedEndsSo(name: string)
    requires PlainName(name) && !FineName(name)
    ensures name == "failed"
  {
    PlainEscapes(name);
    var q := Quote(name);
    var k := |q| - 8;
    var tail := q[k..];
    assert q[k] == tail[0] == '\"';
    QuotesOutside(name, k);
    assert name == q[1..7] && q[1..7] == tail[1..7];
  }

  lemma PlainIsFine(name: string)
    requires PlainName(name) && name != "failed"
    ensures FineName(name)
  {
    if !FineName(name) {
      OnlyFailedEndsSo(name);
    }
  }

  // ------------------------------------------------------------------ slimming

  /** The variables a slimmed point keeps. */
  const ENGINE_VARS: seq<string> := [
    "speed", "ignition", "odometerAcc", "caN300_EngineRPM", "caN300_FuelConsumed", "fuel level", "fuelLevel", "FuelLevel"]
  const AXIS_VARS: seq<string> := ["axisX", "AxisX", "axisY", "AxisY", "axisZ", "AxisZ"]
  const HARSH_VARS: seq<string> := [
    "harshBrakingDigital", "harshBrakingValue", "harshAccelerationDigital", "harshAccelerationValue",
    "harshCorneringDigital", "harshCorneringValue"]
  const KEEP_VARS: seq<string> := ENGINE_VARS + AXIS_VARS + HARSH_VARS

  datatype RawPosition = RawPosition(latitude: Option<Json>, longitude: Option<Json>, altitude: Option<Json>)

  /** Variables come as a list of named values, as an object, or not at all. */
  datatype RawVariables = NoVariables | Listed(items: seq<Member>) | Keyed(values: map<string, Json>)

  /** A point as received; `trackInfoId` is 0 when there is none. */
  datatype RawPoint = RawPoint(utc: string, position: Option<RawPosition>, variables: RawVariables, trackInfoId: nat)

  /** Assign a property: an existing name keeps its place. */
  function Put(members: seq<Member>, m: Member): seq<Member> {
    if members == [] then [m]
    else if members[0].name == m.name then [m] + members[1..]
    else [members[0]] + Put(members[1..], m)
  }

  function KeepListed(items: seq<Member>): seq<Member> {
    if items == [] then []
    else
      var before, last := KeepListed(items[..|items| - 1]), items[|items| - 1];
      if last.name in KEEP_VARS then Put(before, last) else before
  }

  function KeepKeyed(values: map<string, Json>, names: seq<string>): seq<Member> {
    if names == [] then []
    else (if names[0] in values then [Member(names[0], values[names[0]])] else []) + KeepKeyed(values, names[1..])
  }

  function KeptVariables(v: RawVariables): seq<Member> {
    match v
    case NoVariables => []
    case Listed(items) => KeepListed(items)
    case Keyed(values) => KeepKeyed(values, KEEP_VARS)
  }

  function Field(name: string, value: Option<Json>): seq<Member> {
    if value.Some? then [Member(name, value.value)] else []
  }

  function PositionJson(p: RawPosition): Json {
    Obj(Field("latitude", p.latitude) + Field("longitude", p.longitude) + Field("altitude", p.altitude))
  }

  function PositionField(raw: RawPoint): Option<Json> {
    if raw.position.Some? then Some(PositionJson(raw.position.value)) else None
  }

  function VariablesField(raw: RawPoint): Option<Json> {
    if KeptVariables(raw.variables) == [] then None else Some(Obj(KeptVariables(raw.variables)))
  }

  function TrackField(raw: RawPoint): Option<Json> {
    if raw.trackInfoId > 0 then Some(Num(UserDays.Decimal(raw.trackInfoId))) else None
  }

  function SlimPoint(raw: RawPoint): Option<Json> {
    if Trim(raw.utc) == "" then None
    else Some(Obj(
      Field("utc", Some(Str(raw.utc))) + Field("position", PositionField(raw)) + Field("variables", VariablesField(raw))
      + Field("trackInfoId", TrackField(raw))))
  }

  function Slimmed(raw: RawPoint): seq<Json> {
    if SlimPoint(raw).Some? then [SlimPoint(raw).value] else []
  }

  function SlimPoints(raws: seq<RawPoint>): seq<Json> {
    FlatMap(Slimmed, raws)
  }

  /** `slimPointsJson`. */
  function SlimPointsJson(raws: seq<RawPoint>): string {
    Text(Arr(SlimPoints(raws)))
  }

  // ------------------------------------------------------------------ scalar values

  /** Values as the tracker reports them: numbers, texts, truth values or nothing. */
  predicate Scalar(j: Json) {
    match j
    case Num(text) => text != "" && '\"' !in text
    case Arr(_) => false
    case Obj(_) => false
    case _ => true
  }

  predicate ScalarField(value: Option<Json>) {
    value.Some? ==> Scalar(value.value)
  }

  predicate ScalarPosition(p: RawPosition) {
    ScalarField(p.latitude) && ScalarField(p.longitude) && ScalarField(p.altitude)
  }

  predicate ScalarPoint(raw: RawPoint) {
    && (raw.position.Some? ==> ScalarPosition(raw.position.value))
    && (match raw.variables
        case NoVariables => true
        case Listed(items) => forall i :: 0 <= i < |items| ==> Scalar(items[i].value)
        case Keyed(values) => forall name :: name in values ==> Scalar(values[name]))
  }

  ghost predicate FineMembers(members: seq<Member>) {
    forall i :: 0 <= i < |members| ==> FineName(members[i].name) && FineNames(members[i].value)
  }

  predicate Decent(name: string) {
    PlainName(name) && name != "failed"
  }

  lemma EngineNames()
    ensures forall i :: 0 <= i < |ENGINE_VARS| ==> Decent(ENGINE_VARS[i])
  {
    assert Decent("speed") && Decent("ignition") && Decent("odometerAcc") && Decent("caN300_EngineRPM");
    assert Decent("caN300_FuelConsumed") && Decent("fuel level") && Decent("fuelLevel") && Decent("FuelLevel");
  }

  lemma AxisNames()
    ensures forall i :: 0 <= i < |AXIS_VARS| ==> Decent(AXIS_VARS[i])
  {
    assert Decent("axisX") && Decent("AxisX") && Decent("axisY") && Decent("AxisY") && Decent("axisZ") && Decent("AxisZ");
  }

  lemma HarshDigitalNames()
    ensures Decent("harshBrakingDigital") && Decent("harshAccelerationDigital") && Decent("harshCorneringDigital")
  {
  }

  lemma HarshValueNames()
    ensures Decent("harshBrakingValue") && Decent("harshAccelerationValue") && Decent("harshCorneringValue")
  {
  }

  lemma HarshNames()
    ensures forall i :: 0 <= i < |HARSH_VARS| ==> Decent(HARSH_VARS[i])
  {
    HarshDigitalNames();
    HarshValueNames();
  }

  const FIELD_NAMES: seq<string> := ["utc", "position", "variables", "trackInfoId", "latitude", "longitude", "altitude"]

  lemma FieldNames()
    ensures forall i :: 0 <= i < |FIELD_NAMES| ==> Decent(FIELD_NAMES[i])
  {
    assert Decent("utc") && Decent("position") && Decent("variables") && Decent("trackInfoId");
    assert Decent("latitude") && Decent("longitude") && Decent("altitude");
  }

  lemma FieldFine(name: string, value: Option<Json>)
    requires name in FIELD_NAMES && (value.Some? ==> FineNames(value.value))
    ensures FineMembers(Field(name, value))
  {
    FieldNames();
    PlainIsFine(name);
  }

  lemma KeptNameFine(name: string)
    requires name in KEEP_VARS
    ensures FineName(name)
  {
    EngineNames();
    AxisNames();
    HarshNames();
    var i :| 0 <= i < |KEEP_VARS| && KEEP_VARS[i] == name;
    PlainIsFine(name);
  }

  lemma {:induction false} PutFine(members: seq<Member>, m: Member)
    requires FineMembers(members) && FineName(m.name) && FineNames(m.value)
    ensures FineMembers(Put(members, m))
  {
    if members != [] && members[0].name != m.name {
      PutFine(members[1..], m);
    }
  }

  lemma {:induction false} ListedFine(items: seq<Member>)
    requires forall i :: 0 <= i < |items| ==> Scalar(items[i].value)
    ensures FineMembers(KeepListed(items))
  {
    if items != [] {
      ListedFine(items[..|items| - 1]);
      if items[|items| - 1].name in KEEP_VARS {
        KeptNameFine(items[|items| - 1].name);
        PutFine(KeepListed(items[..|items| - 1]), items[|items| - 1]);
      }
    }
  }

  lemma {:induction false} KeyedFine(values: map<string, Json>, names: seq<string>)
    requires (forall name :: name in values ==> Scalar(values[name])) && forall i :: 0 <= i < |names| ==> names[i] in KEEP_VARS
    ensures FineMembers(KeepKeyed(values, names))
  {
    if names != [] {
      KeyedFine(values, names[1..]);
      KeptNameFine(names[0]);
    }
  }

  lemma FineConcat(a: seq<Member>, b: seq<Member>)
    requires FineMembers(a) && FineMembers(b)
    ensures FineMembers(a + b)
  {
  }

  lemma VariablesFine(raw: RawPoint)
    requires ScalarPoint(raw)
    ensures FineMembers(KeptVariables(raw.variables))
  {
    match raw.variables
    case NoVariables =>
    case Listed(items) => ListedFine(items);
    case Keyed(values) => KeyedFine(values, KEEP_VARS);
  }

  lemma ThreeFields(a: seq<Member>, b: seq<Member>, c: seq<Member>)
    requires FineMembers(a) && FineMembers(b) && FineMembers(c)
    ensures FineNames(Obj(a + b + c))
  {
    FineConcat(a, b);
    FineConcat(a + b, c);
  }

  lemma FourFields(a: seq<Member>, b: seq<Member>, c: seq<Member>, d: seq<Member>)
    requires FineMembers(a) && FineMembers(b) && FineMembers(c) && FineMembers(d)
    ensures FineNames(Obj(a + b + c + d))
  {
    FineConcat(a, b);
    FineConcat(a + b, c);
    FineConcat(a + b + c, d);
  }

  lemma KnownFields()
    ensures "utc" in FIELD_NAMES && "position" in FIELD_NAMES && "variables" in FIELD_NAMES && "trackInfoId" in FIELD_NAMES
    ensures "latitude" in FIELD_NAMES && "longitude" in FIELD_NAMES && "altitude" in FIELD_NAMES
  {
    assert FIELD_NAMES[0] == "utc" && FIELD_NAMES[1] == "position" && FIELD_NAMES[2] == "variables";
    assert FIELD_NAMES[3] == "trackInfoId" && FIELD_NAMES[4] == "latitude" && FIELD_NAMES[5] == "longitude";
    assert FIELD_NAMES[6] == "altitude";
  }

  lemma PositionFine(p: RawPosition)
    requires ScalarPosition(p)
    ensures FineNames(PositionJson(p))
  {
    KnownFields();
    FieldFine("latitude", p.latitude);
    FieldFine("longitude", p.longitude);
    FieldFine("altitude", p.altitude);
    ThreeFields(Field("latitude", p.latitude), Field("longitude", p.longitude), Field("altitude", p.altitude));
  }

  lemma PointFine(raw: RawPoint)
    requires ScalarPoint(raw) && SlimPoint(raw).Some?
    ensures FineNames(SlimPoint(raw).value)
  {
    KnownFields();
    VariablesFine(raw);
    if raw.position.Some? {
      PositionFine(raw.position.value);
    }
    FieldFine("utc", Some(Str(raw.utc)));
    FieldFine("position", PositionField(raw));
    FieldFine("variables", VariablesField(raw));
    FieldFine("trackInfoId", TrackField(raw));
    FourFields(Field("utc", Some(Str(raw.utc))), Field("position", PositionField(raw)),
               Field("variables", VariablesField(raw)), Field("trackInfoId", TrackField(raw)));
  }

  lemma {:induction false} PointsFine(raws: seq<RawPoint>)
    requires forall i :: 0 <= i < |raws| ==> ScalarPoint(raws[i])
    ensures FineNames(Arr(SlimPoints(raws)))
  {
    if raws != [] {
      PointsFine(raws[1..]);
      if SlimPoint(raws[0]).Some? {
        PointFine(raws[0]);
      }
    }
  }

  lemma UnmarkedNotFailed(text: string)
    requires Unmarked(text)
    ensures !Includes(text, FAILED_MARK)
  {
    if i :| OccursAt(text, FAILED_MARK, i) {
      MarkStartsSo(text, i);
    }
  }

  lemma MarkStartsSo(text: string, i: int)
    requires OccursAt(text, FAILED_MARK, i)
    ensures OccursAt(text, NAME_MARK, i)
  {
    assert FAILED_MARK[..9] == NAME_MARK;
    assert text[i..i + |FAILED_MARK|][..9] == text[i..i + 9];
  }

  /** Of scalar values the server never writes the failure mark inside the points. */
  lemma SlimmedPointsUnmarked(raws: seq<RawPoint>)
    requires forall i :: 0 <= i < |raws| ==> ScalarPoint(raws[i])
    ensures !Includes(SlimPointsJson(raws), FAILED_MARK)
  {
    PointsFine(raws);
    UnmarkedText(Arr(SlimPoints(raws)));
    UnmarkedNotFailed(SlimPointsJson(raws));
  }

  /** So every line the server writes of scalar points is peeked at truthfully. */
  lemma WrittenLinePeeksTrue(key: string, raws: seq<RawPoint>, failed: bool)
    requires PlainKey(key) && forall i :: 0 <= i < |raws| ==> ScalarPoint(raws[i])
    ensures PeekUserDayNdjson(WrittenLine(key, SlimPointsJson(raws), failed)) == Some(Note(key, failed))
  {
    SlimmedPointsUnmarked(raws);
    PeekAgreesIff(key, SlimPointsJson(raws), failed);
  }

  // ------------------------------------------------------------------ a value that is not scalar

  lemma CarriesMark(head: string, s: string, tail: string)
    requires Includes(s, FAILED_MARK)
    ensures Includes(head + s + tail, FAILED_MARK)
  {
    var i :| OccursAt(s, FAILED_MARK, i);
    var whole := head + s + tail;
    assert whole[|head| + i..|head| + i + |FAILED_MARK|] == s[i..i + |FAILED_MARK|];
    assert OccursAt(whole, FAILED_MARK, |head| + i);
  }

  lemma CarriesValue(name: string, value: string, tail: string)
    requires Includes(value, FAILED_MARK)
    ensures Includes(name + (value + tail), FAILED_MARK)
  {
    CarriesMark(name, value, tail);
    assert name + (value + tail) == name + value + tail;
  }

  lemma CarriesRest(name: string, value: string, rest: string)
    requires Includes(rest, FAILED_MARK)
    ensures Includes(name + (value + ("," + rest)), FAILED_MARK)
  {
    CarriesMark(name + value + ",", rest, "");
    assert name + (value + ("," + rest)) == name + value + "," + rest + "";
  }

  /** A mark in the value of a member is a mark in the object. */
  lemma {:induction false} MemberCarries(members: seq<Member>, k: nat)
    requires k < |members| && Includes(Text(members[k].value), FAILED_MARK)
    ensures Includes(MembersText(members), FAILED_MARK)
  {
    var name, value := Quote(members[0].name) + ":", Text(members[0].value);
    if k == 0 {
      CarriesValue(name, value, if |members| == 1 then "}" else "," + MembersText(members[1..]));
    } else {
      MemberCarries(members[1..], k - 1);
      CarriesRest(name, value, MembersText(members[1..]));
    }
  }

  lemma ObjectCarries(members: seq<Member>, k: nat)
    requires k < |members| && Includes(Text(members[k].value), FAILED_MARK)
    ensures Includes(Text(Obj(members)), FAILED_MARK)
  {
    MemberCarries(members, k);
    CarriesMark("{", MembersText(members), "");
    assert "{" + MembersText(members) + "" == "{" + MembersText(members);
  }

  lemma FailedQuoted()
    ensures Quote("failed") + ":" == NAME_MARK
  {
    assert PlainName("failed");
    PlainEscapes("failed");
  }

  lemma MarkSpelt()
    ensures "{" + (NAME_MARK + ("true" + "}")) == "{" + FAILED_MARK + "}"
  {
  }

  lemma FailedObjectMarked()
    ensures Includes(Text(Obj([Member("failed", Bool(true))])), FAILED_MARK)
  {
    FailedQuoted();
    MarkSpelt();
    OccursInside("{", FAILED_MARK, "}");
    OneMember(Member("failed", Bool(true)));
  }

  lemma OneMember(m: Member)
    ensures Text(Obj([m])) == "{" + ((Quote(m.name) + ":") + (Text(m.value) + "}"))
  {
  }

  /** A kept variable that is itself an object can carry the mark, and then a good day is peeked at as failed. */
  lemma NestedValueMisleads(key: string, raw: RawPoint)
    requires PlainKey(key) && Trim(raw.utc) != "" && raw.variables.Keyed? && "speed" in raw.variables.values
    requires raw.variables.values["speed"] == Obj([Member("failed", Bool(true))])
    ensures PeekUserDayNdjson(WrittenLine(key, SlimPointsJson([raw]), false)) != Some(Note(key, false))
  {
    var values := raw.variables.values;
    var kept := KeptVariables(raw.variables);
    assert KEEP_VARS[0] == ENGINE_VARS[0] == "speed";
    assert kept[0] == Member("speed", values["speed"]);
    FailedObjectMarked();
    ObjectCarries(kept, 0);
    var a, b := Field("utc", Some(Str(raw.utc))), Field("position", PositionField(raw));
    var c, d := Field("variables", VariablesField(raw)), Field("trackInfoId", TrackField(raw));
    assert c == [Member("variables", Obj(kept))];
    assert (a + b + c + d)[|a + b|] == c[0];
    ObjectCarries(a + b + c + d, |a + b|);
    PointMarked(raw);
    PeekAgreesIff(key, SlimPointsJson([raw]), false);
  }

  lemma PointMarked(raw: RawPoint)
    requires SlimPoint(raw).Some? && Includes(Text(SlimPoint(raw).value), FAILED_MARK)
    ensures Includes(SlimPointsJson([raw]), FAILED_MARK)
  {
    OnePoint(raw);
    var text := Text(SlimPoint(raw).value);
    CarriesMark("[", text, "]");
    assert "[" + (text + "]") == "[" + text + "]";
  }

  lemma OneItem(j: Json)
    ensures Text(Arr([j])) == "[" + (Text(j) + "]")
  {
  }

  lemma OnePoint(raw: RawPoint)
    requires SlimPoint(raw).Some?
    ensures SlimPointsJson([raw]) == "[" + (Text(SlimPoint(raw).value) + "]")
  {
    assert FlatMap(Slimmed, [raw]) == Slimmed(raw) + FlatMap(Slimmed, []);
    assert SlimPoints([raw]) == [SlimPoint(raw).value];
    OneItem(SlimPoint(raw).value);
  }
}
