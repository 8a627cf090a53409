/**
 * The v1 scrape endpoint's controller: submit one scrape job under a fresh id,
 * wait for it, classify a failed wait, remove the job, handle an empty result,
 * strip the document's internal fields, bill one credit, log the job and shape
 * the response.
 *
 * The queue, the billing ledger and the job log are collaborators whose
 * outcomes are inputs (the wait's outcome, billing's success); what the
 * controller asks of them is recorded as an ordered trace of effects.
 */
module ScrapeController {
  import opened Wrappers

  const StatusOk: int := 200
  const StatusPaymentRequired: int := 402
  const StatusRequestTimeout: int := 408
  const StatusInternalError: int := 500

  const TimedOutError: string := "Request timed out"
  const InternalError: string := "Internal server error"
  const BillingError: string := "Failed to bill team. Insufficient credits or subscription not found."
  const NoPageWarning: string := "No page found"
  const WaitTimeoutPrefix: string := "Job wait"
  const CreditsPerDocument: nat := 1

  // ---------------------------------------------------------------------------
  // Values
  // ---------------------------------------------------------------------------

  /** A metadata value as JavaScript holds it; `Undefined` is a key set to `undefined`. */
  datatype Value = Undefined | Null | Bool(b: bool) | Number(n: int) | Text(s: string)

  /** An object of metadata or options, keyed by property name. */
  type Metadata = map<string, Value>

  /** A property read: a missing key reads as `undefined`. */
  function Get(m: Metadata, key: string): Value {
    if key in m then m[key] else Undefined
  }

  /** The document a scrape job produces. */
  datatype Document = Document(
    markdown: Option<string>,
    linksOnPage: Option<seq<string>>,
    rawHtml: Option<string>,
    html: Option<string>,
    screenshot: Option<string>,
    fullPageScreenshot: Option<string>,
    metadata: Metadata,
    /** Internal to the scraper, removed before the document leaves the controller. */
    index: Option<int>,
    provider: Option<string>,
    /** Every other field the worker may set (extraction results, warnings, ...). */
    rest: Metadata)

  /** The document as the endpoint returns it. */
  datatype PublicDocument = PublicDocument(
    markdown: Option<string>,
    links: Option<seq<string>>,
    rawHtml: Option<string>,
    html: Option<string>,
    screenshot: Option<string>,
    fullPageScreenshot: Option<string>,
    metadata: Metadata)

  /** The validated request body, its options already converted to the legacy page options. */
  datatype ScrapeRequest = ScrapeRequest(url: string, origin: string, timeout: int, pageOptions: Metadata)

  /** The job submitted to the scrape queue. */
  datatype JobData = JobData(
    url: string,
    mode: string,
    crawlerOptions: Metadata,
    teamId: string,
    pageOptions: Metadata,
    extractorOptions: Metadata,
    origin: string)

  /** What a job log entry records (the elapsed time is not modelled). */
  datatype LogRecord = LogRecord(
    jobId: string,
    success: bool,
    message: string,
    numDocs: nat,
    docs: seq<Document>,
    teamId: string,
    mode: string,
    url: string,
    crawlerOptions: Metadata,
    pageOptions: Metadata,
    origin: string,
    extractorMode: string,
    numTokens: nat)

  /** What the wait may throw: an `Error` object with its message, or any other value. */
  datatype Thrown = ErrorObject(message: string) | OtherThrown

  /** How waiting for the job ended: its list of documents, or a throw. */
  datatype WaitOutcome = Finished(docs: seq<Document>) | Threw(thrown: Thrown)

  /** What the controller asks of its collaborators, in order. */
  datatype Effect =
    | Submit(job: JobData, jobId: string)
    | Wait(jobId: string, timeout: int)
    | Remove(jobId: string)
    | Bill(teamId: string, credits: nat)
    | Log(record: LogRecord)

  /** The HTTP response: status, the `success` flag, and the optional fields of its JSON body. */
  datatype Response = Response(
    status: int,
    success: bool,
    error: Option<string>,
    warning: Option<string>,
    data: Option<PublicDocument>)

  // ---------------------------------------------------------------------------
  // Traces
  // ---------------------------------------------------------------------------

  datatype Kind = SubmitKind | WaitKind | RemoveKind | BillKind | LogKind

  function KindOf(e: Effect): Kind {
    match e
    case Submit(_, _) => SubmitKind
    case Wait(_, _) => WaitKind
    case Remove(_) => RemoveKind
    case Bill(_, _) => BillKind
    case Log(_) => LogKind
  }

  /** How many effects of kind `k` the trace holds. */
  function Count(t: seq<Effect>, k: Kind): (n: nat)
    ensures n <= |t|
  {
    if t == [] then 0
    else Count(t[..|t| - 1], k) + (if KindOf(t[|t| - 1]) == k then 1 else 0)
  }

  /** Every effect of kind `earlier` comes before every effect of kind `later`. */
  predicate Precedes(t: seq<Effect>, earlier: Kind, later: Kind) {
    forall i, j :: 0 <= i < |t| && 0 <= j < |t| && KindOf(t[i]) == earlier && KindOf(t[j]) == later ==> i < j
  }

  /**
   * The controller's lifecycle: submit, wait, remove, bill, log. Each kind's
   * position in it; every trace the controller produces is a prefix of it.
   */
  function Position(k: Kind): (p: nat)
    ensures p < 5
  {
    match k
    case SubmitKind => 0
    case WaitKind => 1
    case RemoveKind => 2
    case BillKind => 3
    case LogKind => 4
  }

  /** The trace follows the lifecycle: effect `i` is of the kind at position `i`, so none repeats. */
  predicate FollowsLifecycle(t: seq<Effect>) {
    forall i :: 0 <= i < |t| ==> Position(KindOf(t[i])) == i
  }

  /** In a trace that follows the lifecycle each kind occurs once if the trace reaches its position, else never. */
  lemma {:induction false} LifecycleCounts(t: seq<Effect>, k: Kind)
    requires FollowsLifecycle(t)
    ensures Count(t, k) == if Position(k) < |t| then 1 else 0
  {
    if t != [] {
      var u := t[..|t| - 1];
      assert FollowsLifecycle(u) by {
        forall i | 0 <= i < |u| ensures Position(KindOf(u[i])) == i {
          assert u[i] == t[i];
        }
      }
      LifecycleCounts(u, k);
    }
  }

  /** In a trace that follows the lifecycle, every effect comes before every effect of a later kind. */
  lemma LifecycleOrder(t: seq<Effect>, earlier: Kind, later: Kind)
    requires FollowsLifecycle(t) && Position(earlier) < Position(later)
    ensures Precedes(t, earlier, later)
  {
  }

  // ---------------------------------------------------------------------------
  // The controller's pure parts
  // ---------------------------------------------------------------------------

  /** A failed wait: a timeout (an `Error` whose message starts "Job wait") is 408, anything else 500. */
  function WaitFailureResponse(e: Thrown): (r: Response)
    ensures r.status == StatusRequestTimeout <==> e.ErrorObject? && WaitTimeoutPrefix <= e.message
    ensures r.status == StatusInternalError <==> !(e.ErrorObject? && WaitTimeoutPrefix <= e.message)
    ensures !r.success && r.warning.None? && r.data.None?
    ensures r.error == Some(if r.status == StatusRequestTimeout then TimedOutError else InternalError)
  {
    if e.ErrorObject? && WaitTimeoutPrefix <= e.message then
      Response(StatusRequestTimeout, false, Some(TimedOutError), None, None)
    else
      Response(StatusInternalError, false, Some(InternalError), None, None)
  }

  /** The document without its internal `index` and `provider` fields. */
  function StripInternal(d: Document): (r: Document)
    ensures r.index.None? && r.provider.None?
    ensures r.(index := d.index, provider := d.provider) == d
  {
    d.(index := None, provider := None)
  }

  /** The token count that is logged: the tokenizer's count of a non-empty markdown, else 0. */
  function NumTokens(d: Document, markdownTokens: nat): (n: nat)
    ensures d.markdown.None? || d.markdown == Some("") ==> n == 0
    ensures d.markdown.Some? && d.markdown.value != "" ==> n == markdownTokens
  {
    if d.markdown.Some? && d.markdown.value != "" then markdownTokens else 0
  }

  /** The four metadata keys the response rewrites. */
  predicate IsRewrittenKey(k: string) {
    k == "pageError" || k == "pageStatusCode" || k == "error" || k == "statusCode"
  }

  /**
   * The response's metadata: the document's metadata with `pageError` and
   * `pageStatusCode` set to `undefined` and their values moved to `error` and
   * `statusCode`, replacing whatever those two keys held.
   */
  function PublicMetadata(m: Metadata): (r: Metadata)
    ensures r.Keys == m.Keys + {"pageError", "pageStatusCode", "error", "statusCode"}
    ensures r["error"] == Get(m, "pageError") && r["statusCode"] == Get(m, "pageStatusCode")
    ensures r["pageError"] == Undefined && r["pageStatusCode"] == Undefined
    ensures forall k :: k in m && !IsRewrittenKey(k) ==> r[k] == m[k]
  {
    m["pageError" := Undefined]["pageStatusCode" := Undefined]
      ["error" := Get(m, "pageError")]["statusCode" := Get(m, "pageStatusCode")]
  }

  /** The document as the success response carries it. */
  function ShapeResponse(d: Document): (r: PublicDocument)
    ensures r.links == d.linksOnPage
    ensures r.markdown == d.markdown && r.rawHtml == d.rawHtml && r.html == d.html
    ensures r.screenshot == d.screenshot && r.fullPageScreenshot == d.fullPageScreenshot
    ensures r.metadata == PublicMetadata(d.metadata)
  {
    PublicDocument(d.markdown, d.linksOnPage, d.rawHtml, d.html, d.screenshot, d.fullPageScreenshot,
      PublicMetadata(d.metadata))
  }

  /** An object as JSON serialisation writes it: keys set to `undefined` are dropped. */
  function Serialized(m: Metadata): (r: Metadata)
    ensures r.Keys <= m.Keys && Undefined !in r.Values
    ensures forall k :: k in m && m[k] != Undefined ==> k in r && r[k] == m[k]
  {
    map k | k in m && m[k] != Undefined :: m[k]
  }

  /** The job the controller submits for a request. */
  function JobFor(req: ScrapeRequest, teamId: string): (job: JobData)
    ensures job.url == req.url && job.teamId == teamId && job.origin == req.origin
    ensures job.mode == "single_urls" && job.pageOptions == req.pageOptions
    ensures job.crawlerOptions == map[] && job.extractorOptions == map[]
  {
    JobData(req.url, "single_urls", map[], teamId, req.pageOptions, map[], req.origin)
  }

  /** The log entry of a completed scrape of one (already stripped) document. */
  function LogRecordFor(req: ScrapeRequest, teamId: string, jobId: string, doc: Document, numTokens: nat): (r: LogRecord)
    ensures r.jobId == jobId && r.success && r.numDocs == 1 && r.docs == [doc]
    ensures r.teamId == teamId && r.url == req.url && r.origin == req.origin
    ensures r.message == "Scrape completed" && r.mode == "scrape" && r.extractorMode == "markdown"
    ensures r.crawlerOptions == map[] && r.pageOptions == req.pageOptions && r.numTokens == numTokens
  {
    LogRecord(jobId, true, "Scrape completed", 1, [doc], teamId, "scrape", req.url, map[],
      req.pageOptions, req.origin, "markdown", numTokens)
  }

  // ---------------------------------------------------------------------------
  // Properties of the pure parts
  // ---------------------------------------------------------------------------

  /** A thrown value that is not an `Error` object is always an internal error, whatever it says. */
  lemma NonErrorThrowIsInternal()
    ensures WaitFailureResponse(OtherThrown).status == StatusInternalError
    ensures WaitFailureResponse(OtherThrown).error == Some(InternalError)
  {
  }

  /**
   * In the serialised response metadata, `pageError` and `pageStatusCode` never
   * appear; `error` and `statusCode` appear exactly when the document's
   * `pageError` and `pageStatusCode` are defined, with their values; every other
   * key is serialised as in the document's own metadata.
   */
  lemma PublicMetadataSerialized(m: Metadata)
    ensures var s := Serialized(PublicMetadata(m));
      && "pageError" !in s && "pageStatusCode" !in s
      && ("error" in s <==> Get(m, "pageError") != Undefined)
      && ("error" in s ==> s["error"] == Get(m, "pageError"))
      && ("statusCode" in s <==> Get(m, "pageStatusCode") != Undefined)
      && ("statusCode" in s ==> s["statusCode"] == Get(m, "pageStatusCode"))
      && (forall k :: !IsRewrittenKey(k) ==> (k in s <==> k in Serialized(m)))
      && (forall k :: !IsRewrittenKey(k) && k in s ==> s[k] == m[k])
  {
    var r := PublicMetadata(m);
    var s := Serialized(r);
    forall k | !IsRewrittenKey(k)
      ensures k in s <==> k in Serialized(m)
    {
      assert k in r <==> k in m;
    }
  }

  /**
   * What the incoming metadata holds under `error` and `statusCode` never reaches
   * the response: it is overwritten by `pageError` and `pageStatusCode`.
   */
  lemma PublicMetadataIgnoresIncomingError(m: Metadata, error: Value, statusCode: Value)
    ensures PublicMetadata(m["error" := error]["statusCode" := statusCode]) == PublicMetadata(m)
  {
    var a, b := PublicMetadata(m["error" := error]["statusCode" := statusCode]), PublicMetadata(m);
    assert a.Keys == b.Keys;
    forall k | k in a
      ensures a[k] == b[k]
    {
      PublicMetadataAtIgnoresIncomingError(m, error, statusCode, k);
    }
  }

  /** The same, one key at a time. */
  lemma PublicMetadataAtIgnoresIncomingError(m: Metadata, error: Value, statusCode: Value, k: string)
    requires k in PublicMetadata(m)
    ensures var a := PublicMetadata(m["error" := error]["statusCode" := statusCode]);
      k in a && a[k] == PublicMetadata(m)[k]
  {
    var m' := m["error" := error]["statusCode" := statusCode];
    if !IsRewrittenKey(k) {
      assert m'[k] == m[k];
    }
  }

  /** The response never depends on the internal fields or on fields it does not list. */
  lemma ShapeResponseIgnoresInternal(d: Document, index: Option<int>, provider: Option<string>, rest: Metadata)
    ensures ShapeResponse(d.(index := index, provider := provider, rest := rest)) == ShapeResponse(d)
    ensures ShapeResponse(StripInternal(d)) == ShapeResponse(d)
  {
  }

  // ---------------------------------------------------------------------------
  // The controller
  // ---------------------------------------------------------------------------

  /**
   * One scrape request. `jobId` is the fresh job id, `waited` how waiting for
   * the job ended, `billed` whether billing the team succeeded, and
   * `markdownTokens` the tokenizer's count for the document's markdown.
   */
  method Scrape(req: ScrapeRequest, teamId: string, jobId: string, waited: WaitOutcome, billed: bool, markdownTokens: nat)
    returns (resp: Response, trace: seq<Effect>)
    // Every path submits the job under the fresh id, then waits for it with the caller's timeout,
    // and goes on through the lifecycle without repeating or reordering a step.
    ensures FollowsLifecycle(trace) && 2 <= |trace|
    ensures trace[0] == Submit(JobFor(req, teamId), jobId) && trace[1] == Wait(jobId, req.timeout)
    // A failed wait is classified; nothing is removed, billed or logged.
    ensures waited.Threw? ==> |trace| == 2 && resp == WaitFailureResponse(waited.thrown)
    // A successful wait removes the job, and only then may billing and logging follow.
    ensures waited.Finished? ==> 3 <= |trace| && trace[2] == Remove(jobId)
    // No document: 200 with a warning and no data; nothing billed or logged.
    ensures waited.Finished? && waited.docs == [] ==>
      |trace| == 3 && resp == Response(StatusOk, true, None, Some(NoPageWarning), None)
    // A document: the request's team is billed one credit.
    ensures waited.Finished? && waited.docs != [] ==> 4 <= |trace| && trace[3] == Bill(teamId, CreditsPerDocument)
    // Billing failed: 402 without data; nothing logged.
    ensures waited.Finished? && waited.docs != [] && !billed ==>
      |trace| == 4 && resp == Response(StatusPaymentRequired, false, Some(BillingError), None, None)
    // Full success: the first document alone, stripped, is logged under the submitted job id and returned shaped.
    ensures waited.Finished? && waited.docs != [] && billed ==>
      var doc := StripInternal(waited.docs[0]);
      && |trace| == 5 && trace[4] == Log(LogRecordFor(req, teamId, jobId, doc, NumTokens(doc, markdownTokens)))
      && resp == Response(StatusOk, true, None, None, Some(ShapeResponse(doc)))
  {
    trace := [Submit(JobFor(req, teamId), jobId)];
    trace := Record(trace, Wait(jobId, req.timeout));
    var docs: seq<Document>;
    match waited {
      case Threw(e) =>
        resp := WaitFailureResponse(e);
        return;
      case Finished(ds) =>
        docs := ds;
    }
    trace := Record(trace, Remove(jobId));
    if docs == [] {
      resp := Response(StatusOk, true, None, Some(NoPageWarning), None);
      return;
    }
    var doc := StripInternal(docs[0]);
    var numTokens := NumTokens(doc, markdownTokens);
    var credits := CreditsPerDocument;
    trace := Record(trace, Bill(teamId, credits));
    if !billed {
      resp := Response(StatusPaymentRequired, false, Some(BillingError), None, None);
      return;
    }
    trace := Record(trace, Log(LogRecordFor(req, teamId, jobId, doc, numTokens)));
    resp := Response(StatusOk, true, None, None, Some(ShapeResponse(doc)));
  }

  /** Records the lifecycle's next effect: the earlier effects stay as they were. */
  method Record(t: seq<Effect>, e: Effect) returns (t': seq<Effect>)
    requires FollowsLifecycle(t) && Position(KindOf(e)) == |t|
    ensures FollowsLifecycle(t') && |t'| == |t| + 1 && t'[|t|] == e
    ensures forall i :: 0 <= i < |t| ==> t'[i] == t[i]
  {
    t' := t + [e];
  }
}
