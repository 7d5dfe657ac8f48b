/**
 The retrying GET: over any stream of outcomes, one outcome per attempt, it returns or fails with
 the first decisive one and waits a bounded time.
 */
module ApiGet {
  import opened Seqs
  import opened JsNumbers
  import Ndjson
  import UserDays

  const ATTEMPTS := 8
  const CAP_MS := 12000.0
  const RETRY_AFTER_CAP_MS := 20000.0

  // ------------------------------------------------------------------ outcomes of one attempt

  datatype Body<T> = Json(value: T) | Unreadable(message: string)

  /** `retryAfter` is the header's text, empty when there is no such header. */
  datatype Outcome<T> =
    | Response(status: nat, retryAfter: string, body: Body<T>)
    | NetworkError(message: string)
    | Aborted

  datatype Result<T> = Value(value: T) | Error(message: string) | Abort

  predicate RetryableStatus(status: nat) {
    status == 429 || status == 502 || status == 503 || status == 504
  }

  predicate OkStatus(status: nat) {
    200 <= status <= 299
  }

  // ------------------------------------------------------------------ how long to wait

  function Power2(n: nat): nat {
    if n == 0 then 1 else 2 * Power2(n - 1)
  }

  function Min(a: real, b: real): real {
    if a <= b then a else b
  }

  function Backoff(attempt: nat): real {
    Min(400.0 * Power2(attempt) as real, CAP_MS)
  }

  function RetryDelayMs(parse: Parse, retryAfter: string, attempt: nat): real {
    if retryAfter != "" && parse(retryAfter).Finite? && parse(retryAfter).value >= 0.0
    then Min(parse(retryAfter).value * 1000.0, RETRY_AFTER_CAP_MS)
    else Backoff(attempt)
  }

  /** No wait is negative or longer than 20 seconds, nor, without a header, than the cap. */
  lemma DelayBounds(parse: Parse, retryAfter: string, attempt: nat)
    ensures 0.0 <= RetryDelayMs(parse, retryAfter, attempt) <= 20000.0
    ensures RetryDelayMs(parse, "", attempt) <= 12000.0
  {
    PowerPositive(attempt);
  }

  /** A header of up to 20 seconds is obeyed exactly, a longer one for 20; a date or a negative number is ignored. */
  lemma RetryAfterObeyed(parse: Parse, retryAfter: string, attempt: nat)
    requires retryAfter != ""
    ensures forall s: real :: parse(retryAfter) == Finite(s) && 0.0 <= s <= 20.0 ==>
      RetryDelayMs(parse, retryAfter, attempt) == s * 1000.0
    ensures forall s: real :: parse(retryAfter) == Finite(s) && s > 20.0 ==> RetryDelayMs(parse, retryAfter, attempt) == 20000.0
    ensures forall s: real :: parse(retryAfter) == Finite(s) && s < 0.0 ==>
      RetryDelayMs(parse, retryAfter, attempt) == RetryDelayMs(parse, "", attempt)
    ensures !parse(retryAfter).Finite? ==> RetryDelayMs(parse, retryAfter, attempt) == RetryDelayMs(parse, "", attempt)
  {
  }

  lemma {:induction false} PowerPositive(n: nat)
    ensures Power2(n) >= 1
  {
    if n > 0 {
      PowerPositive(n - 1);
    }
  }

  /** Without a usable header the wait doubles until it reaches the cap, and never shrinks. */
  lemma BackoffDoubles(attempt: nat)
    ensures Backoff(0) == 400.0
    ensures Backoff(attempt + 1) == if 2.0 * Backoff(attempt) <= 12000.0 then 2.0 * Backoff(attempt) else 12000.0
    ensures Backoff(attempt) <= Backoff(attempt + 1)
  {
    PowerPositive(attempt);
    assert Power2(attempt + 1) as real == 2.0 * Power2(attempt) as real;
  }

  // ------------------------------------------------------------------ which outcomes are decisive

  const AFTER_RETRIES := " after retries"

  function StatusError(status: nat, path: string): string {
    "Armada " + UserDays.Decimal(status) + " on " + path
  }

  /** A message the loop does not swallow. */
  predicate Fatal(message: string) {
    "Armada " <= message && !Ndjson.Includes(message, AFTER_RETRIES)
  }

  /** The message thrown inside an attempt, if any. */
  function Raised<T>(o: Outcome<T>, path: string): Option<string> {
    match o
    case Aborted => None
    case NetworkError(message) => Some(message)
    case Response(status, _, body) =>
      if RetryableStatus(status) then None
      else if !OkStatus(status) then Some(StatusError(status, path))
      else if body.Unreadable? then Some(body.message) else None
  }

  predicate Decisive<T>(o: Outcome<T>, path: string) {
    match o
    case Aborted => true
    case NetworkError(message) => Fatal(message)
    case Response(status, _, body) =>
      !RetryableStatus(status) && (Raised(o, path).Some? ==> Fatal(Raised(o, path).value))
  }

  /** What a decisive outcome makes of the call. */
  function Verdict<T>(o: Outcome<T>, path: string): Result<T>
    requires Decisive(o, path)
  {
    if o.Aborted? then Abort
    else if Raised(o, path).Some? then Error(Raised(o, path).value)
    else Value(o.body.value)
  }

  /** What the call fails with when no attempt was decisive. */
  function GiveUp<T>(last: Outcome<T>, path: string): Result<T>
    requires !Decisive(last, path)
  {
    if Raised(last, path).Some? then Error(Raised(last, path).value + " on " + path)
    else Error("Armada " + UserDays.Decimal(last.status) + " on " + path + AFTER_RETRIES)
  }

  lemma NoMarkInHead(status: nat, path: string, i: nat)
    requires Ndjson.OccursAt(StatusError(status, path), AFTER_RETRIES, i)
    ensures i >= |StatusError(status, path)| - |path| - 1
  {
    var digits := UserDays.Decimal(status);
    var m := StatusError(status, path);
    var head := 7 + |digits| + 3;
    assert m == "Armada " + digits + " on " + path;
    assert m[i] == m[i..i + |AFTER_RETRIES|][0] == ' ' && m[i + 1] == m[i..i + |AFTER_RETRIES|][1] == 'a';
    assert forall k :: 0 <= k < 7 ==> m[k] == "Armada "[k];
    assert forall k :: 7 <= k < 7 + |digits| ==> m[k] == digits[k - 7];
    assert m[7 + |digits|..head] == " on";
    assert m[7 + |digits|] == ' ' && m[7 + |digits| + 1] == 'o' && m[7 + |digits| + 2] == 'n';
  }

  /**
   A status that is neither ok nor retryable ends the call at once, except on a path whose text
   itself makes the message look like a give-up.
   */
  lemma ErrorStatusDecisive<T>(o: Outcome<T>, path: string)
    requires o.Response? && !OkStatus(o.status) && !RetryableStatus(o.status)
    ensures Decisive(o, path) <==> !Ndjson.Includes(" " + path, AFTER_RETRIES)
  {
    var m := StatusError(o.status, path);
    var head := |m| - |path| - 1;
    assert m[head..] == " " + path;
    assert "Armada " <= m;
    if i :| Ndjson.OccursAt(m, AFTER_RETRIES, i) {
      NoMarkInHead(o.status, path, i);
      assert (" " + path)[i - head..i - head + |AFTER_RETRIES|] == m[i..i + |AFTER_RETRIES|];
      assert Ndjson.OccursAt(" " + path, AFTER_RETRIES, i - head);
    }
    if i :| Ndjson.OccursAt(" " + path, AFTER_RETRIES, i) {
      assert m[head + i..head + i + |AFTER_RETRIES|] == (" " + path)[i..i + |AFTER_RETRIES|];
      assert Ndjson.OccursAt(m, AFTER_RETRIES, head + i);
    }
  }

  // ------------------------------------------------------------------ the paths the client asks for

  /** What a path is built from: ids, and texts that are percent-encoded. */
  datatype Path =
    | Groups | Users | EventRules
    | UsersStatus(fromIndex: nat, groupId: Option<nat>)
    | GroupUsers(group: nat)
    | TrackInfos(updatedSince: string)
    | Tracks(trackInfo: nat)
    | UserDay(user: nat, date: string)
    | ReverseGeocode(lat: string, lon: string)
    | CustomFields(user: nat)
    | Events(date: string, user: nat, rule: nat)

  type Encode = string -> string

  function PathText(encode: Encode, p: Path): string {
    match p
    case Groups => "/groups?FromIndex=0&PageSize=1000"
    case Users => "/users?FromIndex=0&PageSize=1000"
    case EventRules => "/eventrules"
    case UsersStatus(from, group) =>
      "/usersstatus?FromIndex=" + UserDays.Decimal(from) + "&PageSize=1000&Kind=Asset"
      + if group.Some? then "&GroupId=" + UserDays.Decimal(group.value) else ""
    case GroupUsers(group) => "/groups/" + UserDays.Decimal(group) + "/users?FromIndex=0&PageSize=1000"
    case TrackInfos(since) => "/trackinfos?UpdatedSince=" + encode(since) + "&FromIndex=0&PageSize=10000000"
    case Tracks(info) => "/trackinfos/" + UserDays.Decimal(info) + "/tracks?Filtered=true"
    case UserDay(user, date) => "/users/" + UserDays.Decimal(user) + "/tracks?Date=" + encode(date) + "&Filtered=true"
    case ReverseGeocode(lat, lon) => "/reversegeocode?lat=" + encode(lat) + "&lon=" + encode(lon)
    case CustomFields(user) => "/users/" + UserDays.Decimal(user) + "/customfields"
    case Events(date, user, rule) =>
      "/events?Date=" + encode(date) + "&userId=" + UserDays.Decimal(user) + "&ruleId=" + UserDays.Decimal(rule)
  }

  /** Percent-encoding leaves no space. */
  ghost predicate Spaceless(encode: Encode) {
    forall text: string :: ' ' !in encode(text)
  }

  predicate NoSpace(s: string) {
    ' ' !in s
  }

  lemma NoSpaceInDecimal(n: nat)
    ensures NoSpace(UserDays.Decimal(n))
  {
    var s := UserDays.Decimal(n);
    assert forall i :: 0 <= i < |s| ==> s[i] != ' ';
  }

  lemma NoSpaceConcat(a: string, b: string)
    requires NoSpace(a) && NoSpace(b)
    ensures NoSpace(a + b)
  {
  }

  lemma NoSpaceAround(a: string, b: string, c: string)
    requires NoSpace(a) && NoSpace(b) && NoSpace(c)
    ensures NoSpace(a + b + c)
  {
    NoSpaceConcat(a, b);
    NoSpaceConcat(a + b, c);
  }

  lemma ListPaths()
    ensures NoSpace("/groups?FromIndex=0&PageSize=1000") && NoSpace("/users?FromIndex=0&PageSize=1000") && NoSpace("/eventrules")
  {
  }

  lemma IdPathParts()
    ensures NoSpace("/groups/") && NoSpace("/users/") && NoSpace("/customfields") && NoSpace("/trackinfos/")
    ensures NoSpace("/tracks?Filtered=true") && NoSpace("/tracks?Date=") && NoSpace("&Filtered=true")
  {
  }

  lemma StatusParts()
    ensures NoSpace("/usersstatus?FromIndex=") && NoSpace("&PageSize=1000&Kind=Asset") && NoSpace("&GroupId=")
  {
  }

  lemma WindowParts()
    ensures NoSpace("/trackinfos?UpdatedSince=") && NoSpace("&FromIndex=0&PageSize=10000000")
  {
  }

  lemma PlaceAndEventParts()
    ensures NoSpace("/reversegeocode?lat=") && NoSpace("&lon=")
    ensures NoSpace("/events?Date=") && NoSpace("&userId=") && NoSpace("&ruleId=")
  {
  }

  lemma StatusPathSpaceless(from: nat, group: Option<nat>)
    ensures NoSpace("/usersstatus?FromIndex=" + UserDays.Decimal(from) + "&PageSize=1000&Kind=Asset"
                    + if group.Some? then "&GroupId=" + UserDays.Decimal(group.value) else "")
  {
    StatusParts();
    NoSpaceInDecimal(from);
    NoSpaceAround("/usersstatus?FromIndex=", UserDays.Decimal(from), "&PageSize=1000&Kind=Asset");
    var head := "/usersstatus?FromIndex=" + UserDays.Decimal(from) + "&PageSize=1000&Kind=Asset";
    if group.Some? {
      NoSpaceInDecimal(group.value);
      NoSpaceConcat("&GroupId=", UserDays.Decimal(group.value));
      NoSpaceConcat(head, "&GroupId=" + UserDays.Decimal(group.value));
    } else {
      assert head + "" == head;
    }
  }

  lemma IdPathsSpaceless(encode: Encode, p: Path)
    requires Spaceless(encode) && (p.GroupUsers? || p.Tracks? || p.CustomFields? || p.UserDay?)
    ensures NoSpace(PathText(encode, p))
  {
    ListPaths();
    IdPathParts();
    match p {
      case GroupUsers(group) =>
        NoSpaceInDecimal(group);
        NoSpaceAround("/groups/", UserDays.Decimal(group), "/users?FromIndex=0&PageSize=1000");
      case Tracks(info) =>
        NoSpaceInDecimal(info);
        NoSpaceAround("/trackinfos/", UserDays.Decimal(info), "/tracks?Filtered=true");
      case CustomFields(user) =>
        NoSpaceInDecimal(user);
        NoSpaceAround("/users/", UserDays.Decimal(user), "/customfields");
      case UserDay(user, date) =>
        NoSpaceInDecimal(user);
        NoSpaceAround("/users/", UserDays.Decimal(user), "/tracks?Date=");
        NoSpaceAround("/users/" + UserDays.Decimal(user) + "/tracks?Date=", encode(date), "&Filtered=true");
    }
  }

  lemma EventsPathSpaceless(encode: Encode, date: string, user: nat, rule: nat)
    requires Spaceless(encode)
    ensures NoSpace("/events?Date=" + encode(date) + "&userId=" + UserDays.Decimal(user) + "&ruleId=" + UserDays.Decimal(rule))
  {
    PlaceAndEventParts();
    NoSpaceInDecimal(user);
    NoSpaceInDecimal(rule);
    var head := "/events?Date=" + encode(date) + "&userId=";
    NoSpaceAround("/events?Date=", encode(date), "&userId=");
    NoSpaceAround(head, UserDays.Decimal(user), "&ruleId=");
    NoSpaceConcat(head + UserDays.Decimal(user) + "&ruleId=", UserDays.Decimal(rule));
  }

  /** No path the client asks for holds a space. */
  lemma PathsSpaceless(encode: Encode, p: Path)
    requires Spaceless(encode)
    ensures NoSpace(PathText(encode, p))
  {
    ListPaths();
    match p {
      case UsersStatus(from, group) => StatusPathSpaceless(from, group);
      case TrackInfos(since) =>
        WindowParts();
        NoSpaceAround("/trackinfos?UpdatedSince=", encode(since), "&FromIndex=0&PageSize=10000000");
      case ReverseGeocode(lat, lon) =>
        PlaceAndEventParts();
        NoSpaceAround("/reversegeocode?lat=", encode(lat), "&lon=");
        NoSpaceConcat("/reversegeocode?lat=" + encode(lat) + "&lon=", encode(lon));
      case Events(date, user, rule) => EventsPathSpaceless(encode, date, user, rule);
      case GroupUsers(_) => IdPathsSpaceless(encode, p);
      case Tracks(_) => IdPathsSpaceless(encode, p);
      case CustomFields(_) => IdPathsSpaceless(encode, p);
      case UserDay(_, _) => IdPathsSpaceless(encode, p);
      case _ =>
    }
  }

  lemma SpacelessIsNoGiveUp(path: string)
    requires ' ' !in path
    ensures !Ndjson.Includes(" " + path, AFTER_RETRIES)
  {
    if i :| Ndjson.OccursAt(" " + path, AFTER_RETRIES, i) {
      SecondSpace(path, i);
    }
  }

  lemma SecondSpace(path: string, i: int)
    requires Ndjson.OccursAt(" " + path, AFTER_RETRIES, i)
    ensures ' ' in path
  {
    var found := (" " + path)[i..i + |AFTER_RETRIES|];
    assert found[6] == ' ' && found[6] == (" " + path)[i + 6] == path[i + 5];
  }

  /** On every path the client asks for, a status that is neither ok nor retryable ends the call at once. */
  lemma ClientPathsNeverRetried<T>(encode: Encode, p: Path, o: Outcome<T>)
    requires Spaceless(encode) && o.Response? && !OkStatus(o.status) && !RetryableStatus(o.status)
    ensures Decisive(o, PathText(encode, p))
    ensures Verdict(o, PathText(encode, p)) == Result<T>.Error(StatusError(o.status, PathText(encode, p)))
  {
    PathsSpaceless(encode, p);
    SpacelessIsNoGiveUp(PathText(encode, p));
    ErrorStatusDecisive(o, PathText(encode, p));
  }

  // ------------------------------------------------------------------ what each outcome means for the call

  /** The statuses worth another attempt: too many requests, and a gateway in trouble. */
  ghost predicate Transient(status: nat) {
    status == 429 || status == 502 || status == 503 || status == 504
  }

  /** A message that looks like an error of the tracker's, and not like a give-up. */
  ghost predicate LooksFinal(message: string) {
    |message| >= 7 && message[..7] == "Armada " && !exists i :: Ndjson.OccursAt(message, " after retries", i)
  }

  lemma FatalLooksFinal(message: string)
    ensures Fatal(message) <==> LooksFinal(message)
  {
    assert |"Armada "| == 7;
  }

  /**
   On every path the client asks for: a transient status and an unreadable answer are tried again, an
   answer that can be read is the result, and any other status is an error at once.
   */
  lemma ResponseMeans<T>(encode: Encode, p: Path, o: Outcome<T>)
    requires Spaceless(encode) && o.Response?
    ensures var path := PathText(encode, p);
      if Transient(o.status) then !Decisive(o, path)
      else if o.status < 200 || o.status > 299 then
        Decisive(o, path) && Verdict(o, path) == Result<T>.Error("Armada " + UserDays.Decimal(o.status) + " on " + path)
      else if o.body.Json? then Decisive(o, path) && Verdict(o, path) == Value(o.body.value)
      else (Decisive(o, path) <==> LooksFinal(o.body.message))
           && (Decisive(o, path) ==> Verdict(o, path) == Result<T>.Error(o.body.message))
  {
    if !Transient(o.status) {
      if o.status < 200 || o.status > 299 {
        ClientPathsNeverRetried(encode, p, o);
      } else if o.body.Unreadable? {
        FatalLooksFinal(o.body.message);
      }
    }
  }

  /** A network failure is tried again unless its message looks like an error of the tracker's; an abort ends the call. */
  lemma FailureMeans<T>(path: string, message: string)
    ensures Decisive(Outcome<T>.NetworkError(message), path) <==> LooksFinal(message)
    ensures LooksFinal(message) ==> Verdict(Outcome<T>.NetworkError(message), path) == Result<T>.Error(message)
    ensures Decisive(Outcome<T>.Aborted, path) && Verdict(Outcome<T>.Aborted, path) == Result<T>.Abort
  {
    FatalLooksFinal(message);
  }

  /** How the call fails after the last attempt: with the transient status, or with the failure's own message. */
  lemma GaveUpWith<T>(last: Outcome<T>, path: string)
    requires !Decisive(last, path)
    ensures last.Response? && Transient(last.status) ==>
      GiveUp(last, path) == Result<T>.Error("Armada " + UserDays.Decimal(last.status) + " on " + path + " after retries")
    ensures last.NetworkError? ==> GiveUp(last, path) == Result<T>.Error(last.message + " on " + path)
    ensures last.Response? && 200 <= last.status <= 299 && last.body.Unreadable? ==>
      GiveUp(last, path) == Result<T>.Error(last.body.message + " on " + path)
  {
  }

  // ------------------------------------------------------------------ the loop

  /** The wait after a failed attempt: the response's header counts only for a retryable status. */
  function WaitAfter<T>(parse: Parse, o: Outcome<T>, attempt: nat): real {
    if o.Response? && RetryableStatus(o.status) then RetryDelayMs(parse, o.retryAfter, attempt)
    else RetryDelayMs(parse, "", attempt)
  }

  /** Only a transient status is asked how long to wait. */
  lemma WaitMeans<T>(parse: Parse, o: Outcome<T>, attempt: nat)
    ensures WaitAfter(parse, o, attempt)
      == RetryDelayMs(parse, if o.Response? && Transient(o.status) then o.retryAfter else "", attempt)
  {
  }

  function Sum(waits: seq<real>): real {
    if waits == [] then 0.0 else Sum(waits[..|waits| - 1]) + waits[|waits| - 1]
  }

  lemma {:induction false} SumBound(waits: seq<real>, most: real)
    requires forall i :: 0 <= i < |waits| ==> 0.0 <= waits[i] <= most
    ensures 0.0 <= Sum(waits) <= |waits| as real * most
  {
    if waits != [] {
      SumBound(waits[..|waits| - 1], most);
    }
  }

  /** No outcome before `n` is decisive, and `waits` are the pauses after them. */
  ghost predicate AllRetried<T(!new)>(outcomes: nat -> Outcome<T>, path: string, n: nat) {
    forall k :: 0 <= k < n ==> !Decisive(outcomes(k), path)
  }

  ghost predicate Waited<T(!new)>(parse: Parse, outcomes: nat -> Outcome<T>, waits: seq<real>) {
    forall k :: 0 <= k < |waits| ==> waits[k] == WaitAfter(parse, outcomes(k), k)
  }

  /** `outcomes(k)` is what attempt `k` meets. */
  method Get<T(!new)>(parse: Parse, outcomes: nat -> Outcome<T>, path: string)
    returns (result: Result<T>, made: nat, waits: seq<real>)
    ensures 1 <= made <= 8 && AllRetried(outcomes, path, made - 1)
    ensures var last := outcomes(made - 1); Decisive(last, path) ==> result == Verdict(last, path) && |waits| == made - 1
    ensures var last := outcomes(made - 1); !Decisive(last, path) ==> made == 8 && result == GiveUp(last, path)
    ensures var last := outcomes(made - 1);
      !Decisive(last, path) ==> |waits| == if Raised(last, path).Some? then made - 1 else made
    ensures Waited(parse, outcomes, waits)
    ensures 0.0 <= Sum(waits) <= 160000.0
  {
    var lastStatus, lastError := 0, "request failed";
    made, waits := 0, [];
    while made < ATTEMPTS
      invariant made <= ATTEMPTS && |waits| == made
      invariant AllRetried(outcomes, path, made) && Waited(parse, outcomes, waits)
      invariant made > 0 && Raised(outcomes(made - 1), path).None? ==> lastStatus == outcomes(made - 1).status
      invariant made == ATTEMPTS ==> Raised(outcomes(made - 1), path).None?
    {
      var attempt, outcome := made, outcomes(made);
      made := made + 1;
      if outcome.Aborted? {
        result := Abort;
        WaitsBounded(parse, outcomes, waits);
        return;
      }
      if outcome.Response? {
        lastStatus := outcome.status;
      }
      if outcome.Response? && RetryableStatus(outcome.status) {
        lastError := "Armada " + UserDays.Decimal(outcome.status);
        waits := waits + [RetryDelayMs(parse, outcome.retryAfter, attempt)];
        continue;
      }
      var raised := Raised(outcome, path);
      if raised.None? {
        result := Value(outcome.body.value);
        WaitsBounded(parse, outcomes, waits);
        return;
      }
      if Fatal(raised.value) {
        result := Error(raised.value);
        WaitsBounded(parse, outcomes, waits);
        return;
      }
      lastError := raised.value;
      if attempt >= ATTEMPTS - 1 {
        result := Error(lastError + " on " + path);
        WaitsBounded(parse, outcomes, waits);
        return;
      }
      waits := waits + [RetryDelayMs(parse, "", attempt)];
    }
    result := Error("Armada " + (if lastStatus != 0 then UserDays.Decimal(lastStatus) else lastError)
                    + " on " + path + AFTER_RETRIES);
    WaitsBounded(parse, outcomes, waits);
  }

  lemma WaitsBounded<T(!new)>(parse: Parse, outcomes: nat -> Outcome<T>, waits: seq<real>)
    requires Waited(parse, outcomes, waits) && |waits| <= ATTEMPTS
    ensures 0.0 <= Sum(waits) <= ATTEMPTS as real * RETRY_AFTER_CAP_MS
  {
    forall i | 0 <= i < |waits| ensures 0.0 <= waits[i] <= RETRY_AFTER_CAP_MS {
      DelayBounds(parse, if outcomes(i).Response? then outcomes(i).retryAfter else "", i);
      DelayBounds(parse, "", i);
    }
    SumBound(waits, RETRY_AFTER_CAP_MS);
  }
}
