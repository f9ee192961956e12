/** Document acquisition: URL validation, the status and size checks of the
    download helper, the page-count and length checks of PDF extraction, the
    classification of failures, temp-file cleanup, the fallback page and the
    decorated entry point. The HTTP exchange, the file system and the PDF loader
    are parameters: what the server answered, the temp-file path the system
    handed out, and what extraction returned. */
module Acquisition {
  import opened Text
  import opened Errors
  import opened Resilience

  // ---------------------------------------------------------------------------
  // Pages
  // ---------------------------------------------------------------------------

  datatype MetaValue = TextValue(text: string) | FlagValue(flag: bool)

  /** A loaded page: its text and its metadata. */
  datatype Page = Page(content: string, metadata: map<string, MetaValue>)

  /** Total number of characters over all pages. */
  function TotalContent(pages: seq<Page>): nat {
    if |pages| == 0 then 0 else TotalContent(pages[..|pages| - 1]) + |pages[|pages| - 1].content|
  }

  /** The one page `_process_document_fallback` returns. */
  function FallbackPages(url: string): (pages: seq<Page>)
    ensures |pages| == 1
    ensures pages[0].content == DocumentFallbackText
    ensures pages[0].metadata.Keys == {"source", "fallback"}
    ensures pages[0].metadata["source"] == TextValue(url) && pages[0].metadata["fallback"] == FlagValue(true)
  {
    [Page(DocumentFallbackText, map["source" := TextValue(url), "fallback" := FlagValue(true)])]
  }

  // ---------------------------------------------------------------------------
  // Download helper
  // ---------------------------------------------------------------------------

  /** The `content-length` header: missing or empty, a decimal integer, or text
      `int()` rejects. */
  datatype ContentLength = Absent | Declared(length: int) | Malformed(text: string)

  /** What the server answered: status, reason phrase, declared length, and how
      streaming the body into the temp file ended. */
  datatype Response = Response(status: nat, reason: string, contentLength: ContentLength, body: Result<()>)

  const MaxDocumentBytes := 50 * 1024 * 1024
  const Mebibyte := 1024 * 1024

  /** `n` bytes in tenths of a mebibyte, rounded to the nearest tenth with ties
      to even, as `:.1f` rounds the exact quotient `n / 2**20`. */
  function RoundedTenths(n: nat): (t: nat)
    ensures -Mebibyte <= 2 * (t * Mebibyte - 10 * n) <= Mebibyte
    ensures 2 * (t * Mebibyte - 10 * n) == Mebibyte || 2 * (10 * n - t * Mebibyte) == Mebibyte ==> t % 2 == 0
  {
    var q := n * 10 / Mebibyte;
    var rem := n * 10 % Mebibyte;
    if rem > Mebibyte / 2 || (rem == Mebibyte / 2 && q % 2 == 1) then q + 1 else q
  }

  /** Python `f"{n / 2**20:.1f}"` for a non-negative byte count below 2**53: the
      rounded number of tenths, written with one decimal. */
  function MegabytesText(n: nat): (s: string)
    ensures |s| >= 3 && s[|s| - 2] == '.'
    ensures forall k :: 0 <= k < |s| && k != |s| - 2 ==> '0' <= s[k] <= '9'
  {
    var tenths := RoundedTenths(n);
    NatToString(tenths / 10) + "." + [DigitChar(tenths % 10)]
  }

  /** Reading the printed size back gives the rounded number of tenths: the
      digits before the point are the whole mebibytes, the one after it the tenth. */
  lemma MegabytesTextReadsBack(n: nat)
    ensures var s := MegabytesText(n);
            ParseDigits(s[..|s| - 2]) * 10 + DigitValue(s[|s| - 1]) == RoundedTenths(n)
  {
    var t := RoundedTenths(n);
    var s := MegabytesText(n);
    assert s[..|s| - 2] == NatToString(t / 10);
    ParseNatToString(t / 10);
    var d := t % 10;
    assert s[|s| - 1] == DigitChar(d);
    assert DigitValue("0123456789"[d]) == d;
  }

  /** Fixed points of the rendering: one byte over the limit prints as "50.0",
      and a quarter and three quarters of a mebibyte round to the even tenth. */
  lemma MegabytesTextExamples()
    ensures MegabytesText(52428801) == "50.0"
    ensures MegabytesText(262144) == "0.2"
    ensures MegabytesText(786432) == "0.8"
  {
    assert 52428801 * 10 == 500 * Mebibyte + 10;
    assert RoundedTenths(52428801) == 500;
    assert NatToString(5) == "5" && NatToString(50) == NatToString(5) + "0";
    assert 262144 * 10 == 2 * Mebibyte + Mebibyte / 2;
    assert RoundedTenths(262144) == 2;
    assert 786432 * 10 == 7 * Mebibyte + Mebibyte / 2;
    assert RoundedTenths(786432) == 8;
    assert NatToString(0) == "0";
  }

  /** What the download helper returned or raised, and the temp file it created
      on the way (if it got that far). */
  datatype Download = Download(result: Result<string>, created: Option<string>)

  /** `_download_document_with_progress`. `answer` is the response (or the
      exception opening it raised) and `tempPath` the name the temp file gets. */
  function DownloadDocument(answer: Result<Response>, tempPath: string): (d: Download)
    ensures d.result.Ok? <==>
              answer.Ok? && answer.value.status == 200 && answer.value.body.Ok? &&
              (answer.value.contentLength.Malformed? ==> false) &&
              (answer.value.contentLength.Declared? ==> answer.value.contentLength.length <= MaxDocumentBytes)
    ensures d.result.Ok? ==> d.result.value == tempPath
    ensures d.created.Some? ==> d.created.value == tempPath
    ensures answer.Ok? && answer.value.status != 200 ==>
              d == Download(Err(ExternalService("document_download",
                                   "HTTP " + NatToString(answer.value.status) + ": " + answer.value.reason)), None)
    ensures answer.Ok? && answer.value.status == 200 && answer.value.contentLength.Declared? &&
            answer.value.contentLength.length > MaxDocumentBytes ==>
              d == Download(Err(DocumentProcessing("file_size",
                                   "Document too large: " + MegabytesText(answer.value.contentLength.length) +
                                   "MB (max 50MB)")), None)
    ensures d.result.Err? && d.result.error.ClientError? ==> false
  {
    match answer
    case Err(ClientError(m)) => Download(Err(ExternalService("document_download", m)), None)
    case Err(e) => Download(Err(e), None)
    case Ok(resp) =>
      if resp.status != 200 then
        Download(Err(ExternalService("document_download", "HTTP " + NatToString(resp.status) + ": " + resp.reason)), None)
      else
        match resp.contentLength
        case Malformed(text) =>
          Download(Err(Builtin("ValueError", "invalid literal for int() with base 10: '" + text + "'")), None)
        case Declared(n) =>
          if n > MaxDocumentBytes then
            Download(Err(DocumentProcessing("file_size", "Document too large: " + MegabytesText(n) + "MB (max 50MB)")), None)
          else StreamBody(resp.body, tempPath)
        case Absent => StreamBody(resp.body, tempPath)
  }

  /** Creating the temp file and streaming the body into it. */
  function StreamBody(body: Result<()>, tempPath: string): (d: Download)
    ensures d.created == Some(tempPath)
    ensures d.result.Ok? <==> body.Ok?
  {
    match body
    case Ok(_) => Download(Ok(tempPath), Some(tempPath))
    case Err(ClientError(m)) => Download(Err(ExternalService("document_download", m)), Some(tempPath))
    case Err(e) => Download(Err(e), Some(tempPath))
  }

  /** The size limit is exactly 50 MiB: a declared length of 52428800 bytes
      passes and one byte more is refused. */
  lemma SizeLimitIsFiftyMebibytes(tempPath: string)
    ensures DownloadDocument(Ok(Response(200, "OK", Declared(52428800), Ok(()))), tempPath).result == Ok(tempPath)
    ensures DownloadDocument(Ok(Response(200, "OK", Declared(52428801), Ok(()))), tempPath).result.Err?
  {
  }

  // ---------------------------------------------------------------------------
  // PDF extraction
  // ---------------------------------------------------------------------------

  const MinContentLength := 10

  /** `_process_pdf_with_timeout` given what the loader did under its 60 s wait:
      no pages, or fewer than 10 characters in all, is a failure; every failure
      except the wait's expiry is re-raised as a DocumentProcessingError for
      "pdf_processing". */
  function ProcessPdf(load: Completion<seq<Page>>): (r: Result<seq<Page>>)
    ensures r.Ok? <==> load.Finished? && load.outcome.Ok? && |load.outcome.value| > 0 &&
                       TotalContent(load.outcome.value) >= MinContentLength
    ensures r.Ok? ==> r == load.outcome
    ensures load.Expired? || load == Finished(Err(AsyncTimeout)) ==>
              r == Err(Timeout("pdf_processing", DocumentProcessingTimeout))
    ensures r.Err? && r.error != Timeout("pdf_processing", DocumentProcessingTimeout) ==>
              r.error.DocumentProcessing? && r.error.operation == "pdf_processing"
  {
    match load
    case Expired => Err(Timeout("pdf_processing", DocumentProcessingTimeout))
    case Finished(Err(AsyncTimeout)) => Err(Timeout("pdf_processing", DocumentProcessingTimeout))
    case Finished(Err(e)) => Err(DocumentProcessing("pdf_processing", Str(e)))
    case Finished(Ok(pages)) =>
      if |pages| == 0 then
        Err(DocumentProcessing("pdf_processing",
                               Str(DocumentProcessing("pdf_processing", "No content extracted from PDF"))))
      else if TotalContent(pages) < MinContentLength then
        Err(DocumentProcessing("pdf_processing",
                               Str(DocumentProcessing("content_validation",
                                                      "Extracted content is too short (possible processing error)"))))
      else Ok(pages)
  }

  // ---------------------------------------------------------------------------
  // Primary path
  // ---------------------------------------------------------------------------

  /** What the outside world does for one document: the server's answer, the
      temp-file name, and what extraction returned. */
  datatype Fetch = Fetch(answer: Result<Response>, tempPath: string, load: Completion<seq<Page>>)

  /** What the primary path returned or raised, the temp file created on the
      way, and the file its cleanup removed. */
  datatype PrimaryRun = PrimaryRun(result: Result<seq<Page>>, created: Option<string>, removed: Option<string>)

  /** The `except` clauses of `_process_document_primary`, in order. */
  function Classify(e: Exc): (c: Exc)
    ensures e.ClientError? ==> c == ExternalService("document_download", e.message)
    ensures e.AsyncTimeout? ==> c == Timeout("document_download", DocumentDownloadTimeout)
    ensures e.DocumentProcessing? ==> c == e
    ensures !e.ClientError? && !e.AsyncTimeout? && !e.DocumentProcessing? ==>
              c == DocumentProcessing("unexpected_error", Str(e))
    ensures c.ExternalService? || c.Timeout? || c.DocumentProcessing?
  {
    match e
    case ClientError(m) => ExternalService("document_download", m)
    case AsyncTimeout => Timeout("document_download", DocumentDownloadTimeout)
    case DocumentProcessing(_, _) => e
    case _ => DocumentProcessing("unexpected_error", Str(e))
  }

  /** What escapes the body of `async with http_session_with_timeout()`: the
      session helper's `except Exception` re-raises everything as an
      ExternalServiceError for "HTTP". */
  function LeaveSession(e: Exc): (w: Exc)
    ensures w.ExternalService? && w.service == "HTTP"
  {
    ExternalService("HTTP", Str(e))
  }

  const InvalidUrl := DocumentProcessing("url_validation", "Invalid URL provided")

  /** The work inside the session: download, extract, check. The exception it
      raises (if any) is the one raised by the failing step. */
  function SessionBody(f: Fetch): (r: Result<seq<Page>>)
  {
    var d := DownloadDocument(f.answer, f.tempPath);
    if d.result.Err? then Err(d.result.error)
    else
      match ProcessPdf(f.load)
      case Err(e) => Err(e)
      case Ok(pages) =>
        if |pages| == 0 then Err(DocumentProcessing("content_validation", "No content extracted from document"))
        else Ok(pages)
  }

  /** `_process_document_primary` as written: a failure inside the session is
      first re-raised by the session helper, so the classifier only ever sees an
      ExternalServiceError for "HTTP"; and cleanup only removes a path the
      download helper returned, so a temp file created by a download that then
      failed is left behind. */
  function PrimaryAsWritten(url: string, f: Fetch): (run: PrimaryRun)
    ensures |url| == 0 ==> run == PrimaryRun(Err(InvalidUrl), None, None)
    ensures run.result.Ok? <==> |url| > 0 && SessionBody(f).Ok?
    ensures run.result.Ok? ==> run.result == SessionBody(f)
    ensures |url| > 0 && run.result.Err? ==>
              run.result.error == DocumentProcessing("unexpected_error", Str(LeaveSession(SessionBody(f).error)))
    ensures run.removed.Some? <==> |url| > 0 && DownloadDocument(f.answer, f.tempPath).result.Ok?
  {
    if |url| == 0 then PrimaryRun(Err(InvalidUrl), None, None)
    else
      var d := DownloadDocument(f.answer, f.tempPath);
      var removed := if d.result.Ok? then Some(d.result.value) else None;
      match SessionBody(f)
      case Ok(pages) => PrimaryRun(Ok(pages), d.created, removed)
      case Err(e) => PrimaryRun(Err(Classify(LeaveSession(e))), d.created, removed)
  }

  /** As written, a validation failure loses its kind: when the PDF yields no
      pages, the DocumentProcessingError for "pdf_processing" that the
      `except DocumentProcessingError: raise` clause exists to pass on reaches
      the caller as an "unexpected_error" one instead. */
  lemma AsWrittenMisclassifiesValidation(url: string, tempPath: string)
    requires |url| > 0
    ensures var f := Fetch(Ok(Response(200, "OK", Absent, Ok(()))), tempPath, Finished(Ok([])));
            && PrimaryAsWritten(url, f).result.Err?
            && PrimaryAsWritten(url, f).result.error.operation == "unexpected_error"
            && Primary(url, f).result == ProcessPdf(f.load)
            && Primary(url, f).result.error.operation == "pdf_processing"
  {
  }

  /** As written, a download that fails while streaming leaves its temp file
      behind: the file was created, and cleanup removes nothing. */
  lemma AsWrittenLeaksTempFile(tempPath: string, load: Completion<seq<Page>>)
    ensures var f := Fetch(Ok(Response(200, "OK", Absent, Err(ClientError("Connection reset by peer")))), tempPath, load);
            var run := PrimaryAsWritten("https://example.com/a.pdf", f);
            run.result.Err? && run.created == Some(tempPath) && run.removed == None
  {
  }

  /** `_process_document_primary` with the classifier applied to the exception
      the failing step raised, and with cleanup covering every temp file created
      on the way. */
  function Primary(url: string, f: Fetch): (run: PrimaryRun)
    ensures |url| == 0 ==> run == PrimaryRun(Err(InvalidUrl), None, None)
    ensures run.result.Ok? <==> |url| > 0 && SessionBody(f).Ok?
    ensures run.result.Ok? ==> run.result == SessionBody(f)
    ensures |url| > 0 && run.result.Err? ==> run.result.error == Classify(SessionBody(f).error)
    ensures run.removed == run.created
  {
    if |url| == 0 then PrimaryRun(Err(InvalidUrl), None, None)
    else
      var d := DownloadDocument(f.answer, f.tempPath);
      match SessionBody(f)
      case Ok(pages) => PrimaryRun(Ok(pages), d.created, d.created)
      case Err(e) => PrimaryRun(Err(Classify(e)), d.created, d.created)
  }

  /** Every temp file the primary path creates is removed on every exit, and the
      two versions agree on everything but the error they raise and the cleanup. */
  lemma PrimaryCleansUpAndAgrees(url: string, f: Fetch)
    ensures Primary(url, f).created == Primary(url, f).removed
    ensures Primary(url, f).created == PrimaryAsWritten(url, f).created
    ensures Primary(url, f).result.Ok? <==> PrimaryAsWritten(url, f).result.Ok?
    ensures Primary(url, f).result.Ok? ==> Primary(url, f).result == PrimaryAsWritten(url, f).result
  {
  }

  /** The classified failure kinds of the primary path: validation failures
      keep their DocumentProcessingError; a connection failure or an expired
      download is reported as such; anything else is an "unexpected_error". */
  lemma PrimaryFailureKinds(url: string, f: Fetch)
    ensures var run := Primary(url, f);
            run.result.Err? ==> run.result.error.ExternalService? || run.result.error.Timeout? ||
                                run.result.error.DocumentProcessing?
    ensures |url| > 0 && f.answer == Err(AsyncTimeout) ==>
              Primary(url, f).result == Err(Timeout("document_download", DocumentDownloadTimeout))
    ensures |url| > 0 && f.answer.Ok? && f.answer.value.status == 200 &&
            f.answer.value.contentLength.Declared? && f.answer.value.contentLength.length > MaxDocumentBytes ==>
              Primary(url, f).result.Err? && Primary(url, f).result.error.operation == "file_size"
    ensures |url| > 0 && DownloadDocument(f.answer, f.tempPath).result.Ok? && ProcessPdf(f.load).Err? &&
            ProcessPdf(f.load).error.DocumentProcessing? ==>
              Primary(url, f).result == ProcessPdf(f.load)
  {
  }

  // ---------------------------------------------------------------------------
  // Entry point
  // ---------------------------------------------------------------------------

  /** The classes the entry point's retry decorator names. */
  const RetriedOnTransport: seq<ExcClass> := [ClientErrorClass, AsyncTimeoutClass]

  /** `process_document_from_url_async`: the fallback combinator around the
      primary path as written, retried on transport errors, under a 120 s
      deadline. The fallback absorbs every failure, and the corrected primary
      path succeeds on the same inputs with the same pages
      (PrimaryCleansUpAndAgrees), so the result is the same for either. */
  function ProcessDocumentFromUrl(url: string, f: Fetch, expired: bool): (r: Result<seq<Page>>)
    ensures r.Ok? <==> !expired
    ensures expired ==> r == Err(Timeout("document_processing", DocumentDownloadTimeout))
    ensures r.Ok? && PrimaryAsWritten(url, f).result.Ok? ==> r == PrimaryAsWritten(url, f).result
    ensures r.Ok? && PrimaryAsWritten(url, f).result.Err? ==> r.value == FallbackPages(url)
    ensures r.Ok? && Primary(url, f).result.Ok? ==> r == Primary(url, f).result
    ensures r.Ok? && Primary(url, f).result.Err? ==> r.value == FallbackPages(url)
  {
    PrimaryCleansUpAndAgrees(url, f);
    var attempt := (a: nat) =>
      SafeExecuteWithFallback((u: string) => PrimaryAsWritten(u, f).result, (u: string) => Ok(FallbackPages(u)),
                              "document_processing", url).result;
    var run := Retry(attempt, 3, 2000, RetriedOnTransport);
    WithTimeout(if expired then Expired else Finished(run.result), DocumentDownloadTimeout, "document_processing")
  }

  /** The fallback absorbs every failure of the primary path, so the retry
      decorator never sees an exception: exactly one attempt runs and nothing
      is slept. */
  lemma DocumentProcessingNeverRetries(url: string, f: Fetch)
    ensures var attempt := (a: nat) =>
              SafeExecuteWithFallback((u: string) => PrimaryAsWritten(u, f).result, (u: string) => Ok(FallbackPages(u)),
                                      "document_processing", url).result;
            var run := Retry(attempt, 3, 2000, RetriedOnTransport);
            run.calls == 1 && run.waits == [] && run.result.Ok?
  {
    var attempt := (a: nat) =>
      SafeExecuteWithFallback((u: string) => PrimaryAsWritten(u, f).result, (u: string) => Ok(FallbackPages(u)),
                              "document_processing", url).result;
    FallbackOutcome((u: string) => PrimaryAsWritten(u, f).result, (u: string) => Ok(FallbackPages(u)),
                    "document_processing", url);
    RetryFirstSuccess(attempt, 3, 2000, RetriedOnTransport, 0);
  }
}
