/**
 * The splitter lambda: cuts an uploaded statement of N pages into chunks of K
 * pages, names each chunk's object key, queues one work item per chunk and
 * optionally seeds the job's chunk total. S3, SQS and the PDF library are left
 * out; the page count is an input.
 */
module Splitter {
  import opened Wrappers
  import opened Text
  import opened Numbers
  import JobProgress

  /** `event.get(...)` of the three parameters. */
  datatype SplitEvent = SplitEvent(jobId: Option<string>, bucket: Option<string>, key: Option<string>)

  /** Python truthiness of an optional string. */
  predicate Given(v: Option<string>) { v.Some? && v.value != [] }

  /** Pages [start, end) of the original document. */
  datatype ChunkRange = ChunkRange(start: nat, end: nat)

  /** The queue message body for one chunk. */
  datatype ChunkMessage = ChunkMessage(jobId: string, chunkKey: string, chunkIndex: nat, totalChunks: nat)

  datatype SplitResult = Failed(error: string) | Done(totalChunks: nat, totalPages: nat)

  /** `chunks/{job_id}/chunk_{start}_{end-1}.pdf`. */
  function ChunkKey(jobId: string, r: ChunkRange): string {
    KeyPrefix(jobId) + (NatToString(r.start) + ("_" + (IntToString(r.end - 1) + ".pdf")))
  }

  function KeyPrefix(jobId: string): string { "chunks/" + jobId + "/chunk_" }

  /** Chunk i covers pages [i*k, min(i*k + k, n)), and the chunks are the fewest that cover n pages. */
  predicate IsChunking(ranges: seq<ChunkRange>, n: nat, k: nat) {
    && k > 0
    && (forall i :: 0 <= i < |ranges| ==> ranges[i] == ChunkRange(i * k, Min(i * k + k, n)))
    && n <= |ranges| * k
    && (n == 0 <==> ranges == [])
    && (n > 0 ==> (|ranges| - 1) * k < n)
  }

  lemma MulMono(a: nat, b: nat, k: nat)
    requires a <= b
    ensures a * k <= b * k
  {
  }

  lemma MulSucc(m: nat, k: nat)
    ensures (m + 1) * k == m * k + k
  {
  }

  predicate InChunk(r: ChunkRange, p: int) { r.start <= p < r.end }

  /** The chunk that page p falls in. */
  function ChunkIndex(p: nat, k: nat): nat
    requires k > 0
  {
    p / k
  }

  /**
   * The chunks partition the pages: no chunk is empty, each starts where the
   * previous one ends, and every page below n lies in chunk p / k and in no other.
   */
  lemma {:induction false} ChunksPartitionPages(ranges: seq<ChunkRange>, n: nat, k: nat)
    requires IsChunking(ranges, n, k)
    ensures forall i :: 0 <= i < |ranges| ==> ranges[i].start < ranges[i].end <= n
    ensures forall i :: 0 <= i < |ranges| - 1 ==> ranges[i].end == ranges[i + 1].start
    ensures ranges != [] ==> ranges[0].start == 0 && ranges[|ranges| - 1].end == n
    ensures forall p :: 0 <= p < n ==> ChunkIndex(p, k) < |ranges| && InChunk(ranges[ChunkIndex(p, k)], p)
    ensures forall i, p :: 0 <= i < |ranges| && InChunk(ranges[i], p) ==> i == ChunkIndex(p, k)
  {
    var m := |ranges|;
    forall i | 0 <= i < m ensures ranges[i].start < ranges[i].end <= n {
      ChunkNonEmpty(ranges, n, k, i);
    }
    forall i | 0 <= i < m - 1 ensures ranges[i].end == ranges[i + 1].start {
      ChunkAdjacent(ranges, n, k, i);
    }
    forall i, p | 0 <= i < m && InChunk(ranges[i], p) ensures i == ChunkIndex(p, k) {
      DivWithin(p, i, k);
    }
    forall p | 0 <= p < n ensures ChunkIndex(p, k) < m && InChunk(ranges[ChunkIndex(p, k)], p) {
      PageInChunk(ranges, n, k, p);
    }
  }

  lemma ChunkNonEmpty(ranges: seq<ChunkRange>, n: nat, k: nat, i: nat)
    requires IsChunking(ranges, n, k) && i < |ranges|
    ensures ranges[i].start < ranges[i].end <= n
  {
    MulMono(i, |ranges| - 1, k);
  }

  lemma ChunkAdjacent(ranges: seq<ChunkRange>, n: nat, k: nat, i: nat)
    requires IsChunking(ranges, n, k) && i + 1 < |ranges|
    ensures ranges[i].end == ranges[i + 1].start
  {
    MulMono(i + 1, |ranges| - 1, k);
    MulSucc(i, k);
  }

  lemma PageInChunk(ranges: seq<ChunkRange>, n: nat, k: nat, p: nat)
    requires IsChunking(ranges, n, k) && p < n
    ensures ChunkIndex(p, k) < |ranges| && InChunk(ranges[ChunkIndex(p, k)], p)
  {
    var q := p / k;
    DivWithin(p, q, k);
    if q >= |ranges| {
      MulMono(|ranges|, q, k);
    }
  }

  /** There are ceil(n / k) chunks. */
  lemma ChunkCount(ranges: seq<ChunkRange>, n: nat, k: nat)
    requires IsChunking(ranges, n, k)
    ensures |ranges| == (n + k - 1) / k
  {
    var m := |ranges|;
    if n > 0 {
      DivWithin(n + k - 1, m, k);
      assert m * k == (m - 1) * k + k;
    }
  }

  /** q == p / k exactly when q*k <= p < q*k + k. */
  lemma DivWithin(p: nat, q: nat, k: nat)
    requires k > 0
    ensures q * k <= p < q * k + k <==> q == p / k
  {
    var d := p / k;
    assert d * k <= p < d * k + k;
    if q < d {
      MulMono(q + 1, d, k);
      assert (q + 1) * k == q * k + k;
    } else if q > d {
      MulMono(d + 1, q, k);
      assert (d + 1) * k == d * k + k;
    }
  }

  /** Position `i` of `a + "_" + x` holds `a[i]` before `|a|` and the separator at `|a|`. */
  lemma SeparatedAt(a: string, x: string, i: nat)
    ensures i < |a| ==> (a + ("_" + x))[i] == a[i]
    ensures i == |a| ==> (a + ("_" + x))[i] == '_'
  {
  }

  lemma DigitsPrefixUnique(a: string, b: string, x: string, y: string)
    requires forall i :: 0 <= i < |a| ==> IsDigit(a[i])
    requires forall i :: 0 <= i < |b| ==> IsDigit(b[i])
    requires a + ("_" + x) == b + ("_" + y)
    ensures a == b
  {
    SeparatedAt(a, x, |b|);
    SeparatedAt(b, y, |a|);
    if |a| == |b| {
      assert a == (a + ("_" + x))[..|a|];
      assert b == (b + ("_" + y))[..|b|];
    }
  }

  /** Different chunks of one job get different object keys. */
  lemma ChunkKeysDistinct(jobId: string, r1: ChunkRange, r2: ChunkRange)
    requires r1.start != r2.start
    ensures ChunkKey(jobId, r1) != ChunkKey(jobId, r2)
  {
    var p := KeyPrefix(jobId);
    var s1, s2 := NatToString(r1.start), NatToString(r2.start);
    var x, y := IntToString(r1.end - 1) + ".pdf", IntToString(r2.end - 1) + ".pdf";
    if ChunkKey(jobId, r1) == ChunkKey(jobId, r2) {
      assert (p + (s1 + ("_" + x)))[|p|..] == s1 + ("_" + x);
      assert (p + (s2 + ("_" + y)))[|p|..] == s2 + ("_" + y);
      DigitsPrefixUnique(s1, s2, x, y);
      NatToStringRoundTrip(r1.start);
      NatToStringRoundTrip(r2.start);
    }
  }

  /** The first m chunk ranges of an n-page document in chunks of k pages. */
  function Spans(m: nat, k: nat, n: nat): (r: seq<ChunkRange>)
    ensures |r| == m
  {
    if m == 0 then [] else Spans(m - 1, k, n) + [ChunkRange((m - 1) * k, Min((m - 1) * k + k, n))]
  }

  lemma {:induction false} SpansAt(m: nat, k: nat, n: nat)
    ensures forall i :: 0 <= i < m ==> Spans(m, k, n)[i] == ChunkRange(i * k, Min(i * k + k, n))
  {
    if m > 0 {
      SpansAt(m - 1, k, n);
    }
  }

  /** Taking ranges until they reach n pages gives the chunking of n pages. */
  lemma SpansChunking(m: nat, k: nat, n: nat)
    requires k > 0 && n <= m * k
    requires n == 0 <==> m == 0
    requires m > 0 ==> (m - 1) * k < n
    ensures IsChunking(Spans(m, k, n), n, k)
  {
    SpansAt(m, k, n);
  }

  /** The `for start in range(0, n, k)` loop: the page ranges and their object keys, in order. */
  method PlanChunks(jobId: string, k: nat, n: nat) returns (ranges: seq<ChunkRange>, keys: seq<string>)
    requires k > 0
    ensures IsChunking(ranges, n, k)
    ensures |keys| == |ranges|
    ensures forall i :: 0 <= i < |ranges| ==> keys[i] == ChunkKey(jobId, ranges[i])
  {
    ranges, keys := [], [];
    var start: nat := 0;
    while start < n
      invariant start == |ranges| * k
      invariant ranges == Spans(|ranges|, k, n)
      invariant |keys| == |ranges|
      invariant forall i :: 0 <= i < |ranges| ==> keys[i] == ChunkKey(jobId, ranges[i])
      invariant ranges != [] ==> start - k < n
      decreases n - start
    {
      var r := ChunkRange(start, Min(start + k, n));
      MulSucc(|ranges|, k);
      ranges := ranges + [r];
      keys := keys + [ChunkKey(jobId, r)];
      start := start + k;
    }
    if ranges != [] {
      MulSucc(|ranges| - 1, k);
    }
    SpansChunking(|ranges|, k, n);
  }

  /** The send loop: one queue message per chunk key, numbered in order, each knowing the total. */
  method Enqueue(job: string, keys: seq<string>) returns (messages: seq<ChunkMessage>)
    ensures |messages| == |keys|
    ensures forall i :: 0 <= i < |keys| ==> messages[i] == ChunkMessage(job, keys[i], i, |keys|)
  {
    messages := [];
    var idx := 0;
    while idx < |keys|
      invariant 0 <= idx <= |keys|
      invariant |messages| == idx
      invariant forall i :: 0 <= i < idx ==> messages[i] == ChunkMessage(job, keys[i], i, |keys|)
    {
      messages := messages + [ChunkMessage(job, keys[idx], idx, |keys|)];
      idx := idx + 1;
    }
  }

  /**
   * `split(event, context)` for a document of `totalPages` pages with
   * SPLIT_CHUNK_PAGES = `chunkPages`. A zero chunk size makes `range` raise
   * ValueError (Err); a negative one yields no chunks. `seed` is the optional
   * chunk-complete body posted when the backend URL and token are configured.
   */
  method Split(event: SplitEvent, envBucket: Option<string>, chunkPages: int, totalPages: nat, backendConfigured: bool)
    returns (result: Result<SplitResult, string>, ranges: seq<ChunkRange>, keys: seq<string>,
             messages: seq<ChunkMessage>, seed: Option<JobProgress.ChunkCompleteRequest>)
    ensures var bucket := if Given(event.bucket) then event.bucket else envBucket;
      !(Given(event.jobId) && Given(bucket) && Given(event.key)) ==>
        result == Ok(Failed("Missing job parameters")) && ranges == [] && messages == [] && seed.None?
    ensures result.Err? <==> (Given(event.jobId) && Given(if Given(event.bucket) then event.bucket else envBucket)
                             && Given(event.key) && chunkPages == 0)
    ensures result.Err? ==> messages == [] && seed.None?
    ensures (result.Ok? && result.value.Done?) <==>
      (Given(event.jobId) && Given(if Given(event.bucket) then event.bucket else envBucket)
       && Given(event.key) && chunkPages != 0)
    ensures result.Ok? && result.value.Done? ==>
      && event.jobId.Some?
      && (chunkPages > 0 ==> IsChunking(ranges, totalPages, chunkPages))
      && (chunkPages < 0 ==> ranges == [])
      && |keys| == |ranges| == |messages|
      && (forall i :: 0 <= i < |ranges| ==> keys[i] == ChunkKey(event.jobId.value, ranges[i]))
      && (forall i :: 0 <= i < |messages| ==> messages[i] == ChunkMessage(event.jobId.value, keys[i], i, |keys|))
      && result.value == Done(|ranges|, totalPages)
      && seed == (if backendConfigured then Some(JobProgress.ChunkCompleteRequest(Some(0), Some(|ranges|))) else None)
  {
    ranges, keys, messages, seed := [], [], [], None;
    var bucket := if Given(event.bucket) then event.bucket else envBucket;
    if !(Given(event.jobId) && Given(bucket) && Given(event.key)) {
      return Ok(Failed("Missing job parameters")), ranges, keys, messages, seed;
    }
    if chunkPages == 0 {
      return Err("ValueError"), ranges, keys, messages, seed;
    }
    var job := event.jobId.value;
    if chunkPages > 0 {
      ranges, keys := PlanChunks(job, chunkPages, totalPages);
    }
    messages := Enqueue(job, keys);
    if backendConfigured {
      seed := Some(JobProgress.ChunkCompleteRequest(Some(0), Some(|keys|)));
    }
    result := Ok(Done(|keys|, totalPages));
  }
}
