/**
 * The wis-only status pipeline: the same steps as the two-provider pipeline, with
 * the state attached under `wis`, the wis envelope, prefix and fields whatever the
 * options' server, the report URL read from `Report`, and a print step that stays
 * silent while the test runner is active.
 */
module Wis {
  import opened Js
  import opened Paths
  import opened GetOptions
  import opened CheckStatus

  /** A fetch response of the wis pipeline: its status and body are fixed, `wis` is attached afterwards. */
  class Response {
    const status: int
    const document: Node
    var wis: Option<Context>

    constructor (reply: Reply)
      ensures status == reply.status && document == reply.document && wis == None
    {
      status := reply.status;
      document := reply.document;
      wis := None;
    }
  }

  // ---------------------------------------------------------------------------
  // getXml

  /** `getXml` of the wis pipeline: always the wis envelope. */
  function GetXml(username: string, password: string, requestId: string): string {
    WisEnvelope(username, password, requestId)
  }

  /** The envelope is the trimmed wis template, and the one the two-provider pipeline
      posts for the "wis" server. */
  lemma GetXmlTrimsTemplate(username: string, password: string, requestId: string)
    ensures GetXml(username, password, requestId) == Trim(WisTemplate(username, password, requestId))
    ensures GetXml(username, password, requestId) == CheckStatus.GetXml("wis", username, password, requestId)
  {
    TrimWisTemplate(username, password, requestId);
  }

  // ---------------------------------------------------------------------------
  // reportFromJson, augmentResponse, insertOptions

  /** `reportFromJson`: the separator, then one line per truthy wis field in order; the
      "unavailable" fragment for a falsy record. */
  method ReportFromJson(response: Response) returns (report: string)
    requires response.wis.Some?
    ensures report == Fragment("wis", response.wis.value.request.requestId, JsonValue(response.wis.value.json))
  {
    var json := JsonValue(response.wis.value.json);
    var requestId := response.wis.value.request.requestId;
    if !TruthyOpt(json) {
      return StatusUnavailable(requestId);
    }
    report := AppendFieldLines(Separator, json.value, WisFields);
  }

  /** `augmentResponse`: sets `json` to the record under the wis prefix, then the fragment built from it. */
  method AugmentResponse(response: Response)
    requires response.wis.Some?
    modifies response
    ensures response.wis == Some(old(response.wis.value).(
      json := Set(Xml2Json("wis", response.document)),
      report := Some(Fragment("wis", old(response.wis.value).request.requestId, Xml2Json("wis", response.document)))))
  {
    response.wis := Some(response.wis.value.(json := Set(Xml2Json("wis", response.document))));
    var report := ReportFromJson(response);
    response.wis := Some(response.wis.value.(report := Some(report)));
  }

  /** `insertOptions`: replaces the attached state by `{options, request}` and hands back the same response. */
  method InsertOptions(response: Response, options: RunOptions, request: Request) returns (r: Response)
    modifies response
    ensures r == response
    ensures response.wis == Some(Context(options, request, Unset, None))
  {
    response.wis := Some(Context(options, request, Unset, None));
    return response;
  }

  // ---------------------------------------------------------------------------
  // fetchResponses

  /** The reply the wis pipeline gets for a request: the wis envelope posted to the options' URL. */
  function Answer(network: Network, options: RunOptions, request: Request): Reply {
    network(options.url, GetXml(options.username, options.password, request.requestId))
  }

  /** The state of every response, in request order, read with the wis prefix and fields. */
  function PipelineContexts(options: RunOptions, network: Network): (cs: seq<Context>)
    ensures |cs| == |options.requests|
    ensures forall i :: 0 <= i < |cs| ==>
      cs[i].options == options && cs[i].request == options.requests[i] && cs[i].report.Some?
    ensures forall i :: 0 <= i < |cs| ==>
      cs[i] == ContextFor("wis", options, options.requests[i], Answer(network, options, options.requests[i]))
  {
    seq(|options.requests|, i requires 0 <= i < |options.requests| =>
      ContextFor("wis", options, options.requests[i], Answer(network, options, options.requests[i])))
  }

  /** For the "wis" server the wis pipeline attaches exactly the states the two-provider
      pipeline attaches. */
  lemma SameStatesForWis(options: RunOptions, network: Network)
    requires options.server == "wis"
    ensures PipelineContexts(options, network) == CheckStatus.PipelineContexts(options, network)
  {
    forall i | 0 <= i < |options.requests|
      ensures Answer(network, options, options.requests[i]) == CheckStatus.Answer(network, options, options.requests[i])
    {
      var request := options.requests[i];
      GetXmlTrimsTemplate(options.username, options.password, request.requestId);
    }
  }

  /** `fetchStatus`: posts the wis envelope of the request to the options' URL. */
  method FetchStatus(options: RunOptions, request: Request, network: Network) returns (response: Response)
    ensures fresh(response)
    ensures response.status == Answer(network, options, request).status
    ensures response.document == Answer(network, options, request).document
    ensures response.wis == None
  {
    var body := GetXml(options.username, options.password, request.requestId);
    response := new Response(network(options.url, body));
  }

  /** The promise chain `fetchResponses` builds for one request: `insertOptions`, then the
      server-error fragment or `augmentResponse`. */
  method FetchOne(options: RunOptions, request: Request, network: Network) returns (response: Response)
    ensures fresh(response)
    ensures response.wis == Some(ContextFor("wis", options, request, Answer(network, options, request)))
  {
    var fetched := FetchStatus(options, request, network);
    response := InsertOptions(fetched, options, request);
    if HasServerError(response.status) {
      response.wis := Some(response.wis.value.(report := Some(ServerErrorReport(request.requestId))));
      return;
    }
    AugmentResponse(response);
  }

  /** `fetchResponses`, one request after the other. */
  method FetchResponses(options: RunOptions, network: Network) returns (responses: seq<Response>)
    ensures |responses| == |options.requests|
    ensures forall i :: 0 <= i < |responses| ==> fresh(responses[i])
    ensures forall i, j :: 0 <= i < j < |responses| ==> responses[i] != responses[j]
    ensures forall i :: 0 <= i < |responses| ==> responses[i].wis == Some(PipelineContexts(options, network)[i])
  {
    ghost var cs := PipelineContexts(options, network);
    responses := [];
    for i := 0 to |options.requests|
      invariant |responses| == i
      invariant forall j :: 0 <= j < i ==> fresh(responses[j])
      invariant forall j, k :: 0 <= j < k < i ==> responses[j] != responses[k]
      invariant forall j :: 0 <= j < i ==> responses[j].wis == Some(cs[j])
    {
      var response := FetchOne(options, options.requests[i], network);
      assert response.wis == Some(cs[i]);
      assert forall j :: 0 <= j < i ==> responses[j] != response;
      ghost var extended := responses + [response];
      assert forall j :: 0 <= j < i ==> extended[j] == responses[j];
      responses := responses + [response];
    }
  }

  // ---------------------------------------------------------------------------
  // isReasonToAbortDownload, downloadReport, downloadReports

  /** `isReasonToAbortDownload`: the report URL is read from `json.Report` whatever the server. */
  method IsReasonToAbortDownload(fs: FileSystem, response: Response) returns (reason: Option<AbortReason>)
    requires response.wis.Some?
    modifies fs
    ensures reason == AbortDecision("wis", response.wis.value, old(fs.entries))
    ensures fs.entries == AfterAbortCheck("wis", response.wis.value, old(fs.entries))
  {
    var c := response.wis.value;
    var folderPath := JoinPath(c.options.reportFolder, c.request.folderPath);
    var missingReportUrl := !TruthyOpt(ReportUrl("wis", c.json));
    if missingReportUrl {
      return Some(MissingReportUrl);
    }
    var confirmed := fs.ConfirmHierarchicalFolder(folderPath);
    if !confirmed {
      return Some(MissingHierarchicalFolder);
    }
    var reportAlreadyExists := fs.Exists(PdfPath(folderPath));
    if reportAlreadyExists {
      return Some(ReportAlreadyExists);
    }
    return None;
  }

  /** `downloadReport` up to the point where it hands `json.Report` to `downloadFile`. */
  method DownloadReport(fs: FileSystem, response: Response, fetchable: Node -> bool) returns (outcome: Download)
    requires response.wis.Some?
    modifies fs
    ensures outcome == DownloadStep("wis", response.wis.value, old(fs.entries), fetchable)
    ensures fs.entries == AfterAbortCheck("wis", response.wis.value, old(fs.entries))
  {
    var reason := IsReasonToAbortDownload(fs, response);
    if reason.Some? {
      return Aborted(reason.value);
    }
    var c := response.wis.value;
    var folderPath := JoinPath(c.options.reportFolder, c.request.folderPath);
    var reportUrl := ReportUrl("wis", c.json).value;
    var filePath := PdfPath(folderPath);
    if fetchable(reportUrl) {
      outcome := Completed(reportUrl, filePath);
    } else {
      outcome := Failed(reportUrl, filePath);
    }
  }

  /** The states attached to the responses, in order. */
  function Contexts(responses: seq<Response>): (cs: seq<Context>)
    reads set i | 0 <= i < |responses| :: responses[i]
    requires forall i :: 0 <= i < |responses| ==> responses[i].wis.Some?
    ensures |cs| == |responses|
    ensures forall i :: 0 <= i < |responses| ==> cs[i] == responses[i].wis.value
  {
    if responses == [] then []
    else Contexts(responses[..|responses| - 1]) + [responses[|responses| - 1].wis.value]
  }

  /** `downloadReports`: `downloadReport` on every response, in order. */
  method DownloadReports(fs: FileSystem, responses: seq<Response>, fetchable: Node -> bool) returns (outcomes: seq<Download>)
    requires forall i :: 0 <= i < |responses| ==> responses[i].wis.Some?
    modifies fs
    ensures (outcomes, fs.entries) == DownloadRun(true, old(Contexts(responses)), old(fs.entries), fetchable)
  {
    ghost var cs := Contexts(responses);
    outcomes := [];
    assert cs[..0] == [];
    for i := 0 to |responses|
      invariant (outcomes, fs.entries) == DownloadRun(true, cs[..i], old(fs.entries), fetchable)
    {
      var outcome := DownloadReport(fs, responses[i], fetchable);
      DownloadRunStep(true, cs, i, old(fs.entries), fetchable);
      outcomes := outcomes + [outcome];
    }
    assert cs[..|responses|] == cs;
  }

  // ---------------------------------------------------------------------------
  // printReport and wisCheckStatus

  /** The fragments of the responses (`_.get(res, "wis.report", "")`), in order. */
  function ReportsOf(responses: seq<Response>): (r: seq<string>)
    reads set i | 0 <= i < |responses| :: responses[i]
    ensures |r| == |responses|
    ensures forall i :: 0 <= i < |responses| ==> r[i] == ReportOf(responses[i].wis)
  {
    if responses == [] then []
    else ReportsOf(responses[..|responses| - 1]) + [ReportOf(responses[|responses| - 1].wis)]
  }

  /** `printReport` of wis.js: silent while the test runner is active; otherwise the report
      text built from the first response's options, or a crash when there is none to read. */
  function PrintReport(runningTests: bool, responses: seq<Response>): (out: Printout)
    reads set i | 0 <= i < |responses| :: responses[i]
    ensures out.Silent? <==> runningTests
    ensures out.Crash? <==> !runningTests && (responses == [] || responses[0].wis.None?)
    ensures out.Printed? ==>
      out.text == PrintedReport(responses[0].wis.value.options.server, responses[0].wis.value.options.environment,
                                ReportsOf(responses))
    ensures out.Printed? ==>
      var options := responses[0].wis.value.options;
      var header := Header(options.server, options.environment);
      && |out.text| >= |header| + |Trailer|
      && out.text[..|header|] == header
      && out.text[|out.text| - |Trailer|..] == Trailer
  {
    if runningTests then Silent
    else if responses == [] || responses[0].wis.None? then Crash
    else
      var options := responses[0].wis.value.options;
      PrintedReportInOrder(options.server, options.environment, ReportsOf(responses), "");
      Printed(PrintedReport(options.server, options.environment, ReportsOf(responses)))
  }

  lemma ContextsAre(responses: seq<Response>, cs: seq<Context>)
    requires |responses| == |cs|
    requires forall i :: 0 <= i < |responses| ==> responses[i].wis == Some(cs[i])
    ensures Contexts(responses) == cs
  {
    var rs := Contexts(responses);
    assert forall i :: 0 <= i < |cs| ==> rs[i] == cs[i];
  }

  lemma ReportsAre(responses: seq<Response>, cs: seq<Context>)
    requires |responses| == |cs|
    requires forall i :: 0 <= i < |responses| ==> responses[i].wis == Some(cs[i])
    ensures ReportsOf(responses) == ReportTexts(cs)
  {
    var rs := ReportsOf(responses);
    var ts := ReportTexts(cs);
    assert forall i :: 0 <= i < |cs| ==> rs[i] == ts[i];
  }

  /** Responses that carry the states `cs`, all built from `options`, read back as those
      states, and printing them comes to the report of those states. */
  lemma PrintedStates(runningTests: bool, responses: seq<Response>, options: RunOptions, cs: seq<Context>)
    requires |responses| == |cs|
    requires forall i :: 0 <= i < |responses| ==> responses[i].wis == Some(cs[i]) && cs[i].options == options
    ensures Contexts(responses) == cs
    ensures PrintReport(runningTests, responses) ==
      if runningTests then Silent
      else if cs == [] then Crash
      else Printed(PrintedReport(options.server, options.environment, ReportTexts(cs)))
  {
    ContextsAre(responses, cs);
    ReportsAre(responses, cs);
  }

  /** `wisCheckStatus`: fetches every request, prints the report, then starts the downloads,
      which settle afterwards; the downloads never start when printing fails, and printing
      is skipped (and so never fails) while the test runner is active. */
  method WisCheckStatus(options: RunOptions, network: Network, fs: FileSystem, fetchable: Node -> bool, runningTests: bool)
    returns (responses: seq<Response>, printout: Printout, outcomes: seq<Download>)
    modifies fs
    ensures |responses| == |options.requests|
    ensures forall i :: 0 <= i < |responses| ==>
      fresh(responses[i]) && responses[i].wis == Some(PipelineContexts(options, network)[i])
    ensures runningTests ==> printout == Silent
    ensures !runningTests && options.requests == [] ==>
      printout == Crash && outcomes == [] && fs.entries == old(fs.entries)
    ensures !runningTests && options.requests != [] ==>
      printout == Printed(PrintedReport(options.server, options.environment, ReportTexts(PipelineContexts(options, network))))
    ensures runningTests || options.requests != [] ==>
      outcomes == DownloadRun(true, PipelineContexts(options, network), old(fs.entries), fetchable).0
    ensures runningTests || options.requests != [] ==>
      fs.entries == Settled(true, PipelineContexts(options, network), old(fs.entries), fetchable)
  {
    responses := FetchResponses(options, network);
    ghost var cs := PipelineContexts(options, network);
    printout, outcomes := PrintAndDownload(fs, responses, options, cs, fetchable, runningTests);
  }

  /** The `then` steps of `wisCheckStatus` after the fetch, on responses that carry the states
      `cs`: the report is printed (or skipped under tests), then the downloads start and
      settle, unless printing failed. */
  method PrintAndDownload(fs: FileSystem, responses: seq<Response>, ghost options: RunOptions, ghost cs: seq<Context>,
                          fetchable: Node -> bool, runningTests: bool)
    returns (printout: Printout, outcomes: seq<Download>)
    requires |responses| == |cs|
    requires forall i :: 0 <= i < |responses| ==> responses[i].wis == Some(cs[i]) && cs[i].options == options
    modifies fs
    ensures runningTests ==> printout == Silent
    ensures !runningTests && cs == [] ==> printout == Crash && outcomes == [] && fs.entries == old(fs.entries)
    ensures !runningTests && cs != [] ==>
      printout == Printed(PrintedReport(options.server, options.environment, ReportTexts(cs)))
    ensures runningTests || cs != [] ==> outcomes == DownloadRun(true, cs, old(fs.entries), fetchable).0
    ensures runningTests || cs != [] ==> fs.entries == Settled(true, cs, old(fs.entries), fetchable)
  {
    PrintedStates(runningTests, responses, options, cs);
    printout := PrintReport(runningTests, responses);
    if printout.Crash? {
      return printout, [];
    }
    outcomes := DownloadReports(fs, responses, fetchable);
    DownloadRunFrame(true, cs, old(fs.entries), fetchable);
    SettleDownloads(fs, outcomes);
  }
}
