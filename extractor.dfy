/**
 * The extractor lambda: for every queued chunk it gathers the chunk's text
 * (native text per page, OCR for blank pages), reports an empty chunk as a
 * failure, and otherwise asks the language model about the text and reports
 * the chunk complete. The PDF and OCR libraries, S3 and the model call are
 * inputs of each record; the HTTP notifications are the method's output.
 */
module Extractor {
  import opened Wrappers
  import opened Text
  import opened Numbers
  import Seqs
  import Extraction
  import JobProgress

  /** One PDF page: `extract_text()` (None when it has none) and what OCR would read from it. */
  datatype Page = Page(native: Option<string>, ocr: string)

  /**
   * One SQS record. `jobId`/`chunkKey` are None when the body lacks the key;
   * `pages` is None when opening or reading the PDF raised; `reply` is the
   * model's answer, None when the completion call raised.
   */
  datatype ChunkRecord = ChunkRecord(
    jobId: Option<string>,
    chunkKey: Option<string>,
    totalChunks: Option<int>,
    pages: Option<seq<Page>>,
    reply: Option<string>)

  /** The internal-API calls the lambda makes. */
  datatype Notice =
    | FailNotice(jobId: string, error: string)
    | CompleteNotice(jobId: string, body: JobProgress.ChunkCompleteRequest)

  const PromptHeader := "Parse bank transactions JSON array from statement fragment:\n"
  const PromptLimit: nat := 4000

  /** A page's text: the native text unless it is blank, else the OCR text. */
  function PageText(p: Page): (t: string)
    ensures !IsBlank(p.native.GetOr("")) ==> t == p.native.value
    ensures IsBlank(p.native.GetOr("")) ==> t == p.ocr
  {
    var native := p.native.GetOr("");
    if IsBlank(native) then p.ocr else native
  }

  /** `text += "\n" + t` over the pages. */
  function JoinPages(pages: seq<Page>): (text: string)
    ensures |text| >= |pages|
  {
    if pages == [] then "" else JoinPages(pages[..|pages| - 1]) + ("\n" + PageText(pages[|pages| - 1]))
  }

  /** The chunk's text: "" when the extraction raised. */
  function ChunkText(r: ChunkRecord): string {
    if r.pages.None? then "" else JoinPages(r.pages.value)
  }

  lemma BlankAppend(a: string, b: string)
    ensures IsBlank(a + b) <==> IsBlank(a) && IsBlank(b)
  {
    if IsBlank(a) && IsBlank(b) {
      forall i | 0 <= i < |a + b| ensures IsSpace((a + b)[i]) {
        if i >= |a| { assert (a + b)[i] == b[i - |a|]; }
      }
    }
    if IsBlank(a + b) {
      forall i | 0 <= i < |b| ensures IsSpace(b[i]) {
        assert (a + b)[|a| + i] == b[i];
      }
      forall i | 0 <= i < |a| ensures IsSpace(a[i]) {
        assert (a + b)[i] == a[i];
      }
    }
  }

  /** The joined text is blank exactly when every page's text is blank. */
  lemma {:induction false} JoinPagesBlank(pages: seq<Page>)
    ensures IsBlank(JoinPages(pages)) <==> forall i :: 0 <= i < |pages| ==> IsBlank(PageText(pages[i]))
  {
    if pages != [] {
      var init, last := pages[..|pages| - 1], pages[|pages| - 1];
      JoinPagesBlank(init);
      BlankAppend(JoinPages(init), "\n" + PageText(last));
      BlankAppend("\n", PageText(last));
      assert forall i :: 0 <= i < |init| ==> init[i] == pages[i];
    }
  }

  /** The prompt: the fixed instruction and at most the first 4000 characters of the text. */
  function Prompt(text: string): (p: string)
    ensures |p| == |PromptHeader| + Min(PromptLimit, |text|)
    ensures p == PromptHeader + text[..|p| - |PromptHeader|]
  {
    PromptHeader + text[..Min(PromptLimit, |text|)]
  }

  /**
   * Fence stripping of the reply: the reply stripped, and when it opens with
   * ``` its backticks, a leading "json" tag and then a trailing ``` removed.
   */
  function CleanReply(raw: string): (r: string)
    ensures |r| <= |raw|
    ensures !StartsWith(Strip(raw), "```") ==> r == Strip(raw)
    ensures StartsWith(Strip(raw), "```") && !EndsWith(Extraction.CleanFence(raw), "```") ==> r == Extraction.CleanFence(raw)
    ensures StartsWith(Strip(raw), "```") && !StartsWith(Lower(Extraction.StripBackticks(Strip(raw))), "json")
      ==> r == Extraction.StripBackticks(Strip(raw))
    ensures StartsWith(Strip(raw), "```") && EndsWith(Extraction.CleanFence(raw), "```")
      ==> var c := Extraction.CleanFence(raw);
          && StrippedFrom(c[..|c| - 3], r)
          && (r == [] || (!IsSpace(r[0]) && !IsSpace(r[|r| - 1])))
  {
    var c := Extraction.CleanFence(raw);
    CleanFenceShorter(raw);
    if StartsWith(Strip(raw), "```") && EndsWith(c, "```") then
      var d := c[..|c| - 3];
      assert StrippedFrom(d, Strip(d));
      Strip(d)
    else c
  }

  lemma CleanFenceShorter(raw: string)
    ensures |Extraction.CleanFence(raw)| <= |raw|
  {
    var s := Strip(raw);
    if StartsWith(s, "```") {
      StripBackticksShorter(s);
    }
  }

  lemma StripBackticksShorter(s: string)
    ensures |Extraction.StripBackticks(s)| <= |s|
  {
  }

  /** What one record does when it completes: the calls made, the prompt sent and the cleaned reply. */
  datatype Step = Step(notices: seq<Notice>, prompt: Option<string>, cleaned: Option<string>)

  /**
   * One iteration of the record loop. Err is an exception that ends the whole
   * invocation: a body without jobId or chunkKey (KeyError), or the model client
   * that cannot be built.
   */
  function RecordStep(r: ChunkRecord, configured: bool, clientOk: bool): (res: Result<Step, string>)
    ensures r.jobId.None? || r.chunkKey.None? ==> res == Err("KeyError")
    ensures res.Ok? && IsBlank(ChunkText(r)) ==>
      res.value == Step(if configured then [FailNotice(r.jobId.value, "empty chunk")] else [], None, None)
    ensures res.Ok? && !IsBlank(ChunkText(r)) ==>
      && res.value.notices == (if configured then [CompleteNotice(r.jobId.value, JobProgress.ChunkCompleteRequest(Some(1), r.totalChunks))] else [])
      && res.value.prompt == Some(Prompt(ChunkText(r)))
    ensures res.Err? <==> r.jobId.None? || r.chunkKey.None? || (!clientOk && !IsBlank(ChunkText(r)))
  {
    if r.jobId.None? || r.chunkKey.None? then Err("KeyError")
    else
      var text := ChunkText(r);
      if IsBlank(text) then
        Ok(Step(if configured then [FailNotice(r.jobId.value, "empty chunk")] else [], None, None))
      else if !clientOk then Err("client")
      else
        var completion := [CompleteNotice(r.jobId.value, JobProgress.ChunkCompleteRequest(Some(1), r.totalChunks))];
        Ok(Step(if configured then completion else [],
                Some(Prompt(text)),
                if r.reply.Some? then Some(CleanReply(r.reply.value)) else None))
  }

  /** The invocation's effects: everything sent before it ended, and whether it ended normally. */
  datatype Outcome = Outcome(error: Option<string>, notices: seq<Notice>, prompts: seq<string>)

  function OptionList(o: Option<string>): seq<string> {
    if o.Some? then [o.value] else []
  }

  /** The record loop, record by record; an exception keeps what earlier records sent. */
  function Run(rs: seq<ChunkRecord>, configured: bool, clientOk: bool): Outcome {
    if rs == [] then Outcome(None, [], [])
    else Then(RecordStep(rs[0], configured, clientOk), Run(rs[1..], configured, clientOk))
  }

  /** A record's effects followed by those of the records after it, unless the record raised. */
  function Then(step: Result<Step, string>, rest: Outcome): Outcome {
    match step
    case Err(e) => Outcome(Some(e), [], [])
    case Ok(st) => Outcome(rest.error, st.notices + rest.notices, OptionList(st.prompt) + rest.prompts)
  }

  predicate HasText(r: ChunkRecord) { !IsBlank(ChunkText(r)) }
  predicate IsComplete(n: Notice) { n.CompleteNotice? }
  predicate IsFail(n: Notice) { n.FailNotice? }

  /**
   * A run that ends normally sends, when the backend is configured, one call
   * per record: a chunk-complete for every record with text and a failure for
   * every blank one; it sends one prompt per record with text.
   */
  lemma {:induction false} RunCounts(rs: seq<ChunkRecord>, configured: bool, clientOk: bool)
    requires Run(rs, configured, clientOk).error.None?
    ensures var o := Run(rs, configured, clientOk);
      && |o.notices| == (if configured then |rs| else 0)
      && Seqs.Count(o.notices, IsComplete) == (if configured then Seqs.Count(rs, HasText) else 0)
      && Seqs.Count(o.notices, IsFail) == (if configured then |rs| - Seqs.Count(rs, HasText) else 0)
      && |o.prompts| == Seqs.Count(rs, HasText)
  {
    if rs != [] {
      var st := RecordStep(rs[0], configured, clientOk).value;
      var rest := Run(rs[1..], configured, clientOk);
      RunCounts(rs[1..], configured, clientOk);
      Seqs.CountAppend(st.notices, rest.notices, IsComplete);
      Seqs.CountAppend(st.notices, rest.notices, IsFail);
    }
  }

  predicate OnePagePerCompletion(ns: seq<Notice>) {
    forall i :: 0 <= i < |ns| && ns[i].CompleteNotice? ==> ns[i].body.pages == Some(1)
  }

  /** Every chunk-complete call of a run reports one page; an unconfigured backend gets no calls. */
  lemma {:induction false} RunCompletesOnePage(rs: seq<ChunkRecord>, configured: bool, clientOk: bool)
    ensures OnePagePerCompletion(Run(rs, configured, clientOk).notices)
    ensures !configured ==> Run(rs, configured, clientOk).notices == []
  {
    if rs != [] {
      RunCompletesOnePage(rs[1..], configured, clientOk);
      var res := RecordStep(rs[0], configured, clientOk);
      if res.Ok? {
        var head, rest := res.value.notices, Run(rs[1..], configured, clientOk).notices;
        var ns := head + rest;
        forall i | 0 <= i < |ns| && ns[i].CompleteNotice? ensures ns[i].body.pages == Some(1) {
          if i >= |head| {
            assert ns[i] == rest[i - |head|];
          } else {
            assert ns[i] == head[i];
          }
        }
      }
    }
  }

  /** Running the records from position i is handling record i, then the rest. */
  lemma RunFrom(rs: seq<ChunkRecord>, i: nat, configured: bool, clientOk: bool)
    requires i < |rs|
    ensures Run(rs[i..], configured, clientOk) == Then(RecordStep(rs[i], configured, clientOk), Run(rs[i + 1..], configured, clientOk))
  {
    assert rs[i..][0] == rs[i];
    assert rs[i..][1..] == rs[i + 1..];
  }

  /** An outcome with the given calls and prompts made before it. */
  function After(notices: seq<Notice>, prompts: seq<string>, o: Outcome): Outcome {
    Outcome(o.error, notices + o.notices, prompts + o.prompts)
  }

  lemma AfterThen(notices: seq<Notice>, prompts: seq<string>, st: Step, rest: Outcome)
    ensures After(notices, prompts, Then(Ok(st), rest))
         == After(notices + st.notices, prompts + OptionList(st.prompt), rest)
  {
    assert notices + (st.notices + rest.notices) == (notices + st.notices) + rest.notices;
    assert prompts + (OptionList(st.prompt) + rest.prompts) == (prompts + OptionList(st.prompt)) + rest.prompts;
  }

  /** Handling record i either stops the run with its error or adds its effects before the rest. */
  lemma Advance(rs: seq<ChunkRecord>, i: nat, configured: bool, clientOk: bool,
                notices: seq<Notice>, prompts: seq<string>, step: Result<Step, string>)
    requires i < |rs| && step == RecordStep(rs[i], configured, clientOk)
    ensures step.Err? ==> After(notices, prompts, Run(rs[i..], configured, clientOk)) == Outcome(Some(step.error), notices, prompts)
    ensures step.Ok? ==> After(notices, prompts, Run(rs[i..], configured, clientOk))
                         == After(notices + step.value.notices, prompts + OptionList(step.value.prompt),
                                  Run(rs[i + 1..], configured, clientOk))
  {
    RunFrom(rs, i, configured, clientOk);
    if step.Ok? {
      AfterThen(notices, prompts, step.value, Run(rs[i + 1..], configured, clientOk));
    } else {
      assert notices + [] == notices && prompts + [] == prompts;
    }
  }

  /**
   * `extract(event, context)`: Ok("OK") when every record was handled, Err
   * with the exception otherwise; `notices` are the internal-API calls made
   * and `prompts` the prompts sent, in order.
   */
  method Extract(records: seq<ChunkRecord>, configured: bool, clientOk: bool)
    returns (status: Result<string, string>, notices: seq<Notice>, prompts: seq<string>)
    ensures var o := Run(records, configured, clientOk);
      && (status.Ok? <==> o.error.None?)
      && (status.Ok? ==> status.value == "OK")
      && (status.Err? ==> Some(status.error) == o.error)
      && notices == o.notices
      && prompts == o.prompts
  {
    notices, prompts := [], [];
    var i := 0;
    ghost var whole := Run(records, configured, clientOk);
    assert records[0..] == records;
    while i < |records|
      invariant 0 <= i <= |records|
      invariant whole == After(notices, prompts, Run(records[i..], configured, clientOk))
    {
      var step := RecordStep(records[i], configured, clientOk);
      Advance(records, i, configured, clientOk, notices, prompts, step);
      if step.Err? {
        return Err(step.error), notices, prompts;
      }
      notices := notices + step.value.notices;
      prompts := prompts + OptionList(step.value.prompt);
      i := i + 1;
    }
    assert records[i..] == [];
    status := Ok("OK");
  }
}
