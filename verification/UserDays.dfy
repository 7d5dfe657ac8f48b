/** The vehicle-day jobs of a load: their cache keys, their order, and their cutting into chunks. */
module UserDays {
  import opened Seqs

  datatype Job = Job(userId: nat, date: string, key: string)

  // ------------------------------------------------------------------ keys

  function Decimal(n: nat): (s: string)
    ensures s != "" && forall i :: 0 <= i < |s| ==> '0' <= s[i] <= '9'
  {
    if n < 10 then ['0' + n as char] else Decimal(n / 10) + ['0' + (n % 10) as char]
  }

  /** The number a run of digits denotes. */
  function DecimalValue(s: string): int {
    if s == "" then 0 else DecimalValue(s[..|s| - 1]) * 10 + (s[|s| - 1] as int - '0' as int)
  }

  lemma {:induction false} DecimalReadsBack(n: nat)
    ensures DecimalValue(Decimal(n)) == n
  {
    if n < 10 {
      assert DecimalValue(Decimal(n)[..0]) == 0;
    } else {
      DecimalReadsBack(n / 10);
      var s := Decimal(n);
      assert s[..|s| - 1] == Decimal(n / 10);
    }
  }

  function DayCacheKey(userId: nat, date: string): string {
    Decimal(userId) + "|" + date
  }

  lemma BarPosition(userId: nat, date: string, i: nat)
    requires i <= |Decimal(userId)|
    ensures DayCacheKey(userId, date)[i] == '|' <==> i == |Decimal(userId)|
  {
    if i < |Decimal(userId)| {
      assert DayCacheKey(userId, date)[i] == Decimal(userId)[i];
    }
  }

  /** A day key determines its vehicle and its date. */
  lemma DayCacheKeyInjective(u: nat, d: string, u': nat, d': string)
    requires DayCacheKey(u, d) == DayCacheKey(u', d')
    ensures u == u' && d == d'
  {
    var n, n' := |Decimal(u)|, |Decimal(u')|;
    var k := if n < n' then n else n';
    BarPosition(u, d, k);
    BarPosition(u', d', k);
    assert Decimal(u) == DayCacheKey(u, d)[..n] == Decimal(u');
    assert d == DayCacheKey(u, d)[n + 1..] == d';
    DecimalReadsBack(u);
    DecimalReadsBack(u');
  }

  // ------------------------------------------------------------------ order of the jobs

  function JobFor(userId: nat, date: string): Job {
    Job(userId, date, DayCacheKey(userId, date))
  }

  /** Every vehicle of one date. */
  function DateJobs(userIds: seq<nat>, date: string): seq<Job> {
    Map(userId => JobFor(userId, date), userIds)
  }

  function UserDayJobs(userIds: seq<nat>, dates: seq<string>): seq<Job> {
    if dates == [] then []
    else UserDayJobs(userIds, dates[..|dates| - 1]) + DateJobs(userIds, dates[|dates| - 1])
  }

  /** Date-major order, so that the first chunk covers every vehicle. */
  method InterleaveUserDays(userIds: seq<nat>, dates: seq<string>) returns (out: seq<Job>)
    ensures out == UserDayJobs(userIds, dates)
    ensures |out| == |userIds| * |dates|
  {
    out := [];
    for i := 0 to |dates|
      invariant out == UserDayJobs(userIds, dates[..i])
    {
      ghost var before := out;
      assert before + DateJobs(userIds, dates[i])[..0] == before;
      for j := 0 to |userIds|
        invariant out == before + DateJobs(userIds, dates[i])[..j]
      {
        assert DateJobs(userIds, dates[i])[..j + 1] == DateJobs(userIds, dates[i])[..j] + [JobFor(userIds[j], dates[i])];
        out := out + [JobFor(userIds[j], dates[i])];
      }
      assert DateJobs(userIds, dates[i])[..|userIds|] == DateJobs(userIds, dates[i]);
      assert dates[..i + 1][..i] == dates[..i];
    }
    assert dates[..|dates|] == dates;
    JobCount(userIds, dates);
  }

  lemma {:induction false} JobCount(userIds: seq<nat>, dates: seq<string>)
    ensures |UserDayJobs(userIds, dates)| == |userIds| * |dates|
  {
    if dates != [] {
      JobCount(userIds, dates[..|dates| - 1]);
      assert |userIds| * |dates| == |userIds| * (|dates| - 1) + |userIds|;
    }
  }

  ghost predicate DistinctJobs(jobs: seq<Job>) {
    forall i, j :: 0 <= i < j < |jobs| ==> jobs[i].key != jobs[j].key
  }

  ghost function Keys(jobs: seq<Job>): set<string> {
    set j | j in jobs :: j.key
  }

  lemma {:induction false} JobsAre(userIds: seq<nat>, dates: seq<string>)
    ensures forall j ::
      j in UserDayJobs(userIds, dates)
      <==> j.userId in userIds && j.date in dates && j.key == Decimal(j.userId) + "|" + j.date
  {
    if dates != [] {
      var init, last := dates[..|dates| - 1], dates[|dates| - 1];
      JobsAre(userIds, init);
      assert dates == init + [last];
      forall j ensures j in DateJobs(userIds, last) <==> j.userId in userIds && j == JobFor(j.userId, last) {
        if j.userId in userIds && j == JobFor(j.userId, last) {
          var i :| 0 <= i < |userIds| && userIds[i] == j.userId;
          assert DateJobs(userIds, last)[i] == j;
        }
      }
    }
  }

  /** Date-major order: the jobs of a date follow those of the dates before it, in the order of the vehicles. */
  lemma {:induction false} JobsOfDate(userIds: seq<nat>, dates: seq<string>, d: nat, u: nat)
    requires d < |dates| && u < |userIds|
    ensures var jobs, at := UserDayJobs(userIds, dates), |UserDayJobs(userIds, dates[..d])| + u;
      at < |jobs| && jobs[at] == JobFor(userIds[u], dates[d])
  {
    var init, last := dates[..|dates| - 1], dates[|dates| - 1];
    var before, these := UserDayJobs(userIds, init), DateJobs(userIds, last);
    if d < |init| {
      JobsOfDate(userIds, init, d, u);
      assert init[..d] == dates[..d];
      AtFront(before, these, |UserDayJobs(userIds, dates[..d])| + u);
    } else {
      assert dates[..d] == init;
      AtBack(before, these, u);
    }
  }

  lemma AtFront<T>(a: seq<T>, b: seq<T>, i: int)
    requires 0 <= i < |a|
    ensures (a + b)[i] == a[i]
  {
  }

  lemma AtBack<T>(a: seq<T>, b: seq<T>, i: nat)
    requires i < |b|
    ensures (a + b)[|a| + i] == b[i]
  {
  }

  /** Distinct vehicles and dates give one job per (vehicle, date), all with distinct keys. */
  lemma {:induction false} JobsDistinct(userIds: seq<nat>, dates: seq<string>)
    requires Distinct(userIds) && Distinct(dates)
    ensures DistinctJobs(UserDayJobs(userIds, dates))
  {
    if dates != [] {
      var init, last := dates[..|dates| - 1], dates[|dates| - 1];
      JobsDistinct(userIds, init);
      JobsAre(userIds, init);
      var before, these := UserDayJobs(userIds, init), DateJobs(userIds, last);
      assert last !in init;
      var all: seq<Job> := before + these;
      forall i, j | 0 <= i < j < |all| ensures all[i].key != all[j].key {
        var a, b := all[i], all[j];
        assert a == JobFor(a.userId, a.date) by {
          if i < |before| {
            assert a in before;
          }
        }
        if j >= |before| && a.key == b.key {
          DayCacheKeyInjective(a.userId, a.date, b.userId, b.date);
        }
      }
    }
  }

  /** The number of distinct keys is the number of jobs. */
  lemma {:induction false} KeysSize(jobs: seq<Job>)
    requires DistinctJobs(jobs)
    ensures |Keys(jobs)| == |jobs|
  {
    if jobs == [] {
      assert Keys(jobs) == {};
    } else {
      var init, last := jobs[..|jobs| - 1], jobs[|jobs| - 1];
      KeysSize(init);
      assert jobs == init + [last];
      assert Keys(jobs) == Keys(init) + {last.key};
    }
  }

  // ------------------------------------------------------------------ chunks

  /** `chunkArray`: consecutive slices of `size`, the last one shorter. */
  function Chunks<T>(items: seq<T>, size: nat): seq<seq<T>>
    requires size > 0
    decreases |items|
  {
    if items == [] then []
    else if |items| <= size then [items]
    else [items[..size]] + Chunks(items[size..], size)
  }

  /** The chunks concatenate back to the items; each is non-empty, none exceeds the size, and only the last is shorter. */
  lemma {:induction false} ChunksCover<T>(items: seq<T>, size: nat)
    requires size > 0
    ensures Flatten(Chunks(items, size)) == items
    ensures forall i :: 0 <= i < |Chunks(items, size)| ==> 0 < |Chunks(items, size)[i]| <= size
    ensures forall i :: 0 <= i < |Chunks(items, size)| - 1 ==> |Chunks(items, size)[i]| == size
    decreases |items|
  {
    if items == [] {
    } else if |items| <= size {
      assert Flatten([items]) == items + Flatten<T>([]);
    } else {
      ChunksCover(items[size..], size);
      assert items == items[..size] + items[size..];
    }
  }

  function ChunksFrom<T>(items: seq<T>, i: nat, size: nat): seq<seq<T>>
    requires size > 0
  {
    if i < |items| then Chunks(items[i..], size) else []
  }

  lemma ChunksStep<T>(items: seq<T>, i: nat, size: nat)
    requires size > 0 && i < |items|
    ensures var end := if i + size < |items| then i + size else |items|;
      ChunksFrom(items, i, size) == [items[i..end]] + ChunksFrom(items, i + size, size)
  {
    if i + size < |items| {
      assert items[i..][..size] == items[i..i + size] && items[i..][size..] == items[i + size..];
    } else {
      assert items[i..] == items[i..|items|];
    }
  }

  lemma TakeOne<T>(out: seq<T>, x: T, rest: seq<T>)
    ensures out + ([x] + rest) == (out + [x]) + rest
  {
  }

  /** A size below one counts as one. */
  method ChunkArray<T>(items: seq<T>, size: int) returns (out: seq<seq<T>>)
    ensures out == Chunks(items, if size > 1 then size else 1) && Flatten(out) == items
  {
    var n: nat := if size > 1 then size else 1;
    ghost var all := Chunks(items, n);
    ChunksCover(items, n);
    assert items[0..] == items;
    out := [];
    var i: nat := 0;
    while i < |items|
      invariant out + ChunksFrom(items, i, n) == all
    {
      var end := if i + n < |items| then i + n else |items|;
      ChunksStep(items, i, n);
      TakeOne(out, items[i..end], ChunksFrom(items, i + n, n));
      out := out + [items[i..end]];
      i := i + n;
    }
    assert out + [] == out;
  }

  /** `batchDaysStillMissing`: the jobs whose key the batch did not answer. */
  function StillMissing(chunk: seq<Job>, received: set<string>): (r: seq<Job>)
    ensures forall j :: j in r <==> j in chunk && j.key !in received
  {
    if chunk == [] then []
    else
      StillMissing(chunk[..|chunk| - 1], received)
      + (if chunk[|chunk| - 1].key in received then [] else [chunk[|chunk| - 1]])
  }
}
