/**
 * The per-request status pipeline of src/modules/check-status/check-status.js:
 * the SOAP envelope sent to the provider ("wis" or "oneguard"), the status
 * classification, the key-path lookup into the parsed reply, the report
 * fragment, the printed report, and the download gatekeeper over the file
 * system. The network is a function from (url, envelope) to the reply.
 */
module CheckStatus {
  import opened Js
  import opened Paths
  import opened GetOptions

  // ---------------------------------------------------------------------------
  // getXml

  // The fixed pieces of the two envelopes, one line (or attribute) per literal.
  const WisHead: string :=
    "<soap:Envelope"
    + " xmlns:xsi=\"http://www.w3.org/2001/XMLSchema-instance\""
    + " xmlns:xsd=\"http://www.w3.org/2001/XMLSchema\""
    + " xmlns:soap=\"http://schemas.xmlsoap.org/soap/envelope/\">"
    + "\n      <soap:Header>"
    + "\n        <AuthenticateHeader xmlns=\"http://www.wisinspections.com/\">"
    + "\n          <Username>"
  const WisAfterUsername: string :=
    "</Username>"
    + "\n          <Password>"
  const WisAfterPassword: string :=
    "</Password>"
    + "\n        </AuthenticateHeader>"
    + "\n      </soap:Header>"
    + "\n      <soap:Body>"
    + "\n        <CheckStatus xmlns=\"http://www.wisinspections.com/\">"
    + "\n          <RequestID>"
  const WisTail: string :=
    "</RequestID>"
    + "\n        </CheckStatus>"
    + "\n      </soap:Body>"
    + "\n    </soap:Envelope>"
  const OneguardHead: string :=
    "<?xml version=\"1.0\" encoding=\"UTF-8\"?>"
    + "\n<SOAP-ENV:Envelope xmlns:SOAP-ENV=\"http://schemas.xmlsoap.org/soap/envelope/\""
    + "\n    xmlns:ns1=\"https://test.oneguardinspections.com/webService/status/api\">"
    + "\n    <SOAP-ENV:Header>"
    + "\n        <ns1:AuthenticateHeader>"
    + "\n            <UserName>"
  const OneguardAfterUsername: string :=
    "</UserName>"
    + "\n            <Password>"
  const OneguardAfterPassword: string :=
    "</Password>"
    + "\n        </ns1:AuthenticateHeader>"
    + "\n    </SOAP-ENV:Header>"
    + "\n    <SOAP-ENV:Body>"
    + "\n        <SOAP-ENV:GetRequest>"
    + "\n            <request_id>"
  const OneguardTail: string :=
    "</request_id>"
    + "\n            <tpa_code>PRCO</tpa_code>"
    + "\n        </SOAP-ENV:GetRequest>"
    + "\n    </SOAP-ENV:Body>"
    + "\n</SOAP-ENV:Envelope>"

  /** The line break and indentation that frame the envelopes inside the template literals. */
  const Indent: string := "\n    "

  /** A fixed text with the username, the password and the request id interpolated into it. */
  function Interpolate(head: string, afterUsername: string, afterPassword: string, tail: string,
                       username: string, password: string, requestId: string): string
  {
    head + username + afterUsername + password + afterPassword + requestId + tail
  }

  /** The three values stand verbatim at fixed offsets, between the unchanged fixed pieces. */
  lemma InterpolateSlices(head: string, afterUsername: string, afterPassword: string, tail: string,
                          username: string, password: string, requestId: string)
    ensures var r := Interpolate(head, afterUsername, afterPassword, tail, username, password, requestId);
      var i := |head|;
      var j := i + |username| + |afterUsername|;
      var k := j + |password| + |afterPassword|;
      && |r| == k + |requestId| + |tail|
      && r[..i] == head
      && r[i..i + |username|] == username
      && r[i + |username|..j] == afterUsername
      && r[j..j + |password|] == password
      && r[j + |password|..k] == afterPassword
      && r[k..k + |requestId|] == requestId
      && r[k + |requestId|..] == tail
  {
  }

  function WisEnvelope(username: string, password: string, requestId: string): string {
    Interpolate(WisHead, WisAfterUsername, WisAfterPassword, WisTail, username, password, requestId)
  }

  function OneguardEnvelope(username: string, password: string, requestId: string): string {
    Interpolate(OneguardHead, OneguardAfterUsername, OneguardAfterPassword, OneguardTail, username, password, requestId)
  }

  /** The wis template literal: the envelope on indented lines of its own. */
  function WisTemplate(username: string, password: string, requestId: string): string {
    Indent + WisEnvelope(username, password, requestId) + Indent
  }

  /** The oneguard template literal: the envelope starts at once and ends on an indented line. */
  function OneguardTemplate(username: string, password: string, requestId: string): string {
    OneguardEnvelope(username, password, requestId) + Indent
  }

  /** Both envelopes open with "<" and close with ">", so trimming cannot cut into them. */
  lemma EnvelopeEnds(username: string, password: string, requestId: string)
    ensures var w := WisEnvelope(username, password, requestId);
      w != [] && w[0] == '<' && w[|w| - 1] == '>' && !IsWhitespace(w[0]) && !IsWhitespace(w[|w| - 1])
    ensures var o := OneguardEnvelope(username, password, requestId);
      o != [] && o[0] == '<' && o[|o| - 1] == '>' && !IsWhitespace(o[0]) && !IsWhitespace(o[|o| - 1])
  {
    var w := WisEnvelope(username, password, requestId);
    var o := OneguardEnvelope(username, password, requestId);
    assert w[0] == WisHead[0];
    assert w[|w| - 1] == WisTail[|WisTail| - 1];
    assert o[0] == OneguardHead[0];
    assert o[|o| - 1] == OneguardTail[|OneguardTail| - 1];
  }

  lemma IndentIsWhitespace()
    ensures AllWhitespace(Indent) && AllWhitespace("")
  {
  }

  /** Trimming the wis template leaves exactly its envelope, whatever values were interpolated. */
  lemma TrimWisTemplate(username: string, password: string, requestId: string)
    ensures Trim(WisTemplate(username, password, requestId)) == WisEnvelope(username, password, requestId)
  {
    EnvelopeEnds(username, password, requestId);
    IndentIsWhitespace();
    TrimFrame(Indent, WisEnvelope(username, password, requestId), Indent);
  }

  /** Trimming the oneguard template leaves exactly its envelope. */
  lemma TrimOneguardTemplate(username: string, password: string, requestId: string)
    ensures Trim(OneguardTemplate(username, password, requestId)) == OneguardEnvelope(username, password, requestId)
  {
    EnvelopeEnds(username, password, requestId);
    IndentIsWhitespace();
    TrimTail(OneguardEnvelope(username, password, requestId), Indent);
  }

  /** `getXml`: the wis envelope when the server is "wis", the oneguard one otherwise
      (`GetXmlTrimsTemplate` shows this is the trimmed template literal). */
  function GetXml(server: string, username: string, password: string, requestId: string): string {
    if server == "wis" then WisEnvelope(username, password, requestId)
    else OneguardEnvelope(username, password, requestId)
  }

  /** `xml.trim()` of the chosen template literal gives exactly the envelope. */
  lemma GetXmlTrimsTemplate(server: string, username: string, password: string, requestId: string)
    ensures GetXml(server, username, password, requestId) ==
      Trim(if server == "wis" then WisTemplate(username, password, requestId)
           else OneguardTemplate(username, password, requestId))
  {
    if server == "wis" {
      TrimWisTemplate(username, password, requestId);
    } else {
      TrimOneguardTemplate(username, password, requestId);
    }
  }

  /** The wis envelope is sent exactly when the server is "wis", whatever the credentials and id. */
  lemma GetXmlIsWisExactlyForWis(server: string, username: string, password: string, requestId: string)
    ensures GetXml(server, username, password, requestId) == WisEnvelope(username, password, requestId)
            <==> server == "wis"
  {
    if server != "wis" {
      var w := WisEnvelope(username, password, requestId);
      var o := OneguardEnvelope(username, password, requestId);
      assert w[1] == WisHead[1] == 's';
      assert o[1] == OneguardHead[1] == '?';
    }
  }

  // ---------------------------------------------------------------------------
  // xml2json

  const WisKeys: seq<string> := ["soap:Envelope", "soap:Body", "CheckStatusResponse", "CheckStatusResult",
                                 "diffgr:diffgram", "NewDataSet", "tblInspectionRequest"]
  const OneguardKeys: seq<string> := ["SOAP-ENV:Envelope", "SOAP-ENV:Body", "ns1:GetRequestResponse",
                                      "RequestResponseResult"]

  /** The dotted paths handed to `_.get`: the keys joined by ".". */
  const WisPrefix: string := JoinWith(WisKeys, ".")
  const OneguardPrefix: string := JoinWith(OneguardKeys, ".")

  /** The key path of the record a provider's reply holds. */
  function ProviderKeys(server: string): (keys: seq<string>)
    ensures keys != []
  {
    if server == "wis" then WisKeys else OneguardKeys
  }

  lemma KeysWithoutDots()
    ensures forall i :: 0 <= i < |WisKeys| ==> '.' !in WisKeys[i]
    ensures forall i :: 0 <= i < |OneguardKeys| ==> '.' !in OneguardKeys[i]
  {
  }

  /** The dotted prefixes name exactly the provider key paths. */
  lemma PrefixesNameKeys()
    ensures Split(WisPrefix, '.') == WisKeys
    ensures Split(OneguardPrefix, '.') == OneguardKeys
  {
    KeysWithoutDots();
    SplitJoin(WisKeys, '.');
    SplitJoin(OneguardKeys, '.');
  }

  /** `xml2json` after parsing: `_.get` along the provider's prefix, whose dotted segments
      are the provider's keys (`PrefixesNameKeys`); `None` (null) when any key is absent. */
  function Xml2Json(server: string, document: Node): (r: Option<Node>)
    ensures r.Some? ==> document.Element?
  {
    Lookup(document, ProviderKeys(server))
  }

  /** A reply without the provider's outermost element holds no record. */
  lemma Xml2JsonNeedsEnvelope(server: string, document: Node)
    requires document.Element? && ProviderKeys(server)[0] !in document.children
    ensures Xml2Json(server, document) == None
  {
  }

  /** Whatever else a reply holds, `xml2json` yields the value under the last key of the
      provider's prefix in the element the other keys lead to, and null when there is none. */
  lemma Xml2JsonFindsRecord(server: string, document: Node)
    ensures var keys := ProviderKeys(server);
      var parent := Lookup(document, keys[..|keys| - 1]);
      var last := keys[|keys| - 1];
      Xml2Json(server, document) ==
        if parent.Some? && parent.value.Element? && last in parent.value.children
        then Some(parent.value.children[last]) else None
  {
    LookupLast(document, ProviderKeys(server));
  }

  /** `xml2json` yields null exactly when the walk along the provider's prefix stops at one of
      its keys: a leaf, or an element without that key, sits where the key is expected. */
  lemma Xml2JsonMissing(server: string, document: Node)
    ensures Xml2Json(server, document) == None <==>
      exists i :: 0 <= i < |ProviderKeys(server)| && StopsAt(document, ProviderKeys(server), i)
  {
    LookupMissing(document, ProviderKeys(server));
  }

  // ---------------------------------------------------------------------------
  // hasServerError

  const HttpCode400: int := 400

  /** `hasServerError`: the status is 400 or more (`HasServerErrorParses` shows this is what
      `parseInt(status, 10) >= 400` computes). */
  function HasServerError(status: int): bool {
    status >= HttpCode400
  }

  /** Reading the status back with `parseInt(_, 10)` gives the status itself, so the parsed
      comparison classifies exactly the statuses from 400 up as errors. */
  lemma HasServerErrorParses(status: int)
    ensures HasServerError(status) <==>
      match ParseInt(IntToString(status)) case Some(n) => n >= HttpCode400 case None => false
  {
    ParseIntOfIntToString(status);
  }

  // ---------------------------------------------------------------------------
  // reportFromJson

  const WisFields: seq<string> := ["RequestID", "Details", "Images", "Report"]
  const OneguardFields: seq<string> := ["status", "state", "message", "report"]

  /** The fields a provider's report lists, in order. */
  function ReportFields(server: string): seq<string> {
    if server == "wis" then WisFields else OneguardFields
  }

  /** `json[field]`: the member of a record; a leaf has no members. */
  function FieldValue(json: Node, field: string): Option<Node> {
    Lookup(json, [field])
  }

  /** The line `${field}: ${value}` of a report. */
  function FieldLine(field: string, value: Node): string {
    field + ": " + Show(value) + "\n"
  }

  /** The line a field contributes: its line when its value is truthy, nothing otherwise. */
  function FieldContribution(json: Node, field: string): (r: string)
    ensures TruthyOpt(FieldValue(json, field)) ==> r == FieldLine(field, FieldValue(json, field).value)
    ensures !TruthyOpt(FieldValue(json, field)) ==> r == ""
  {
    var v := FieldValue(json, field);
    if TruthyOpt(v) then FieldLine(field, v.value) else ""
  }

  /** The lines of the truthy fields among `fields`, in order. */
  function FieldLines(json: Node, fields: seq<string>): string {
    if fields == [] then ""
    else FieldLines(json, fields[..|fields| - 1]) + FieldContribution(json, fields[|fields| - 1])
  }

  /** The fields whose value is truthy, each with its value, in order. */
  function TruthyEntries(json: Node, fields: seq<string>): seq<(string, Node)> {
    if fields == [] then []
    else
      var v := FieldValue(json, fields[0]);
      (if TruthyOpt(v) then [(fields[0], v.value)] else []) + TruthyEntries(json, fields[1..])
  }

  /** One line per entry, in order. */
  function Lines(entries: seq<(string, Node)>): string {
    if entries == [] then "" else FieldLine(entries[0].0, entries[0].1) + Lines(entries[1..])
  }

  /** The entries are exactly the fields with a truthy value. */
  lemma {:induction false} TruthyEntriesMembers(json: Node, fields: seq<string>)
    ensures forall f, v :: (f, v) in TruthyEntries(json, fields) <==>
      f in fields && FieldValue(json, f) == Some(v) && Truthy(v)
    decreases |fields|
  {
    if fields != [] {
      TruthyEntriesMembers(json, fields[1..]);
      assert forall f :: f in fields <==> f == fields[0] || f in fields[1..];
    }
  }

  lemma AppendAssociates(a: string, b: string, c: string)
    ensures a + (b + c) == (a + b) + c
  {
  }

  lemma {:induction false} FieldLinesAppend(json: Node, a: seq<string>, b: seq<string>)
    ensures FieldLines(json, a + b) == FieldLines(json, a) + FieldLines(json, b)
    decreases |b|
  {
    if b == [] {
      assert a + b == a;
    } else {
      var b' := b[..|b| - 1];
      var last := FieldContribution(json, b[|b| - 1]);
      assert FieldLines(json, a + b) == FieldLines(json, a + b') + last by {
        assert (a + b)[..|a + b| - 1] == a + b';
        assert (a + b)[|a + b| - 1] == b[|b| - 1];
      }
      FieldLinesAppend(json, a, b');
      AppendAssociates(FieldLines(json, a), FieldLines(json, b'), last);
    }
  }

  lemma FieldLinesStep(json: Node, fields: seq<string>, i: nat)
    requires i < |fields|
    ensures FieldLines(json, fields[..i + 1]) == FieldLines(json, fields[..i]) + FieldContribution(json, fields[i])
  {
    assert fields[..i + 1][..i] == fields[..i];
  }

  lemma FieldLinesSingle(json: Node, f: string)
    ensures FieldLines(json, [f]) == FieldContribution(json, f)
  {
    assert [f][..0] == [];
  }

  lemma FieldLinesCons(json: Node, fields: seq<string>)
    requires fields != []
    ensures FieldLines(json, fields) == FieldContribution(json, fields[0]) + FieldLines(json, fields[1..])
  {
    FieldLinesAppend(json, [fields[0]], fields[1..]);
    assert [fields[0]] + fields[1..] == fields;
    FieldLinesSingle(json, fields[0]);
  }

  /** The report lists a line for exactly the truthy fields, in the given order, and nothing else. */
  lemma {:induction false} FieldLinesAreTruthyLines(json: Node, fields: seq<string>)
    ensures FieldLines(json, fields) == Lines(TruthyEntries(json, fields))
    decreases |fields|
  {
    if fields != [] {
      var rest := fields[1..];
      var t := TruthyEntries(json, rest);
      FieldLinesAreTruthyLines(json, rest);
      FieldLinesCons(json, fields);
      var v := FieldValue(json, fields[0]);
      if TruthyOpt(v) {
        assert TruthyEntries(json, fields) == [(fields[0], v.value)] + t;
        assert ([(fields[0], v.value)] + t)[1..] == t;
      } else {
        assert TruthyEntries(json, fields) == [] + t == t;
      }
    }
  }

  /** The fragment for a request whose status could not be read. */
  function StatusUnavailable(requestId: string): string {
    "\n---\nStatus unavailable for: " + requestId + "\n\n"
  }

  /** The fragment for a request answered with an HTTP error. */
  function ServerErrorReport(requestId: string): string {
    "\n---\nServer error for request id: " + requestId + "\n"
  }

  const Separator: string := "\n---\n"

  /** The first line of a provider's report: oneguard names the request, wis leaves that to its fields. */
  function ReportOpening(server: string, requestId: string): string {
    if server == "wis" then "" else "requestId: " + requestId + "\n"
  }

  /** What `reportFromJson` renders for a request and the record found in its reply. */
  function Fragment(server: string, requestId: string, json: Option<Node>): string {
    if !TruthyOpt(json) then StatusUnavailable(requestId)
    else Separator + ReportOpening(server, requestId) + FieldLines(json.value, ReportFields(server))
  }

  /** Every fragment opens with the separator; a falsy record gives exactly the "unavailable" fragment;
      otherwise the fragment lists the truthy provider fields, oneguard's after the request id. */
  lemma FragmentShape(server: string, requestId: string, json: Option<Node>)
    ensures |Fragment(server, requestId, json)| >= |Separator|
            && Fragment(server, requestId, json)[..|Separator|] == Separator
    ensures !TruthyOpt(json) ==> Fragment(server, requestId, json) == StatusUnavailable(requestId)
    ensures TruthyOpt(json) ==>
      Fragment(server, requestId, json) ==
        Separator + ReportOpening(server, requestId) + Lines(TruthyEntries(json.value, ReportFields(server)))
  {
    if TruthyOpt(json) {
      FieldLinesAreTruthyLines(json.value, ReportFields(server));
    }
  }

  // ---------------------------------------------------------------------------
  // Responses and the pipeline state attached to them

  /** What the network answers: the HTTP status and the parsed XML body. */
  datatype Reply = Reply(status: int, document: Node)

  /** `json` of the attached state: not yet set, or set to what `xml2json` found (`None` for null). */
  datatype JsonSlot = Unset | Set(found: Option<Node>)

  /** The state the pipeline attaches to a response: `{options, request}`, later `json` and `report`. */
  datatype Context = Context(options: RunOptions, request: Request, json: JsonSlot, report: Option<string>)

  /** The value `reportFromJson` reads as `json`: unset reads as undefined, like null. */
  function JsonValue(slot: JsonSlot): Option<Node> {
    match slot
    case Unset => None
    case Set(found) => found
  }

  /** A fetch response: its status and body are fixed, `prco` is attached afterwards. */
  class Response {
    const status: int
    const document: Node
    var prco: Option<Context>

    constructor (reply: Reply)
      ensures status == reply.status && document == reply.document && prco == None
    {
      status := reply.status;
      document := reply.document;
      prco := None;
    }
  }

  /** The `map` over the provider's fields inside `genWisReport` / `genOneguardReport`:
      appends one line per truthy field of `json`, in field order. */
  method AppendFieldLines(report: string, json: Node, fields: seq<string>) returns (r: string)
    ensures r == report + FieldLines(json, fields)
  {
    r := report;
    assert FieldLines(json, fields[..0]) == "" by {
      assert fields[..0] == [];
    }
    for i := 0 to |fields|
      invariant r == report + FieldLines(json, fields[..i])
    {
      ghost var before := r;
      var value := FieldValue(json, fields[i]);
      if TruthyOpt(value) {
        r := r + FieldLine(fields[i], value.value);
      }
      assert r == before + FieldContribution(json, fields[i]);
      FieldLinesStep(json, fields, i);
      AppendAssociates(report, FieldLines(json, fields[..i]), FieldContribution(json, fields[i]));
    }
    assert fields[..|fields|] == fields;
  }

  /** `reportFromJson`: the separator, then (oneguard only) the request id, then one line
      per truthy provider field, appended in order; the "unavailable" fragment for a falsy record. */
  method ReportFromJson(response: Response) returns (report: string)
    requires response.prco.Some?
    ensures report == Fragment(response.prco.value.options.server, response.prco.value.request.requestId,
                               JsonValue(response.prco.value.json))
  {
    var json := JsonValue(response.prco.value.json);
    var requestId := response.prco.value.request.requestId;
    if !TruthyOpt(json) {
      return StatusUnavailable(requestId);
    }
    var server := response.prco.value.options.server;
    report := Separator;
    if server == "wis" {
      assert report == Separator + ReportOpening(server, requestId);
      report := AppendFieldLines(report, json.value, WisFields);
    } else {
      report := report + "requestId: " + requestId + "\n";
      assert report == Separator + ReportOpening(server, requestId);
      report := AppendFieldLines(report, json.value, OneguardFields);
    }
  }

  // ---------------------------------------------------------------------------
  // fetchResponses

  /** The network: the reply to an envelope posted to a URL. */
  type Network = (string, string) -> Reply

  /** The reply the pipeline gets for a request: the envelope posted to the options' URL. */
  function Answer(network: Network, options: RunOptions, request: Request): Reply {
    network(options.url, GetXml(options.server, options.username, options.password, request.requestId))
  }

  /** The state `fetchResponses` leaves on the response to `request`, for the provider `server`:
      the fixed error fragment and no `json` on an HTTP error, otherwise the record found
      under the provider's prefix and its fragment. */
  function ContextFor(server: string, options: RunOptions, request: Request, reply: Reply): (c: Context)
    ensures c.options == options && c.request == request && c.report.Some?
  {
    if HasServerError(reply.status) then
      Context(options, request, Unset, Some(ServerErrorReport(request.requestId)))
    else
      var json := Xml2Json(server, reply.document);
      Context(options, request, Set(json), Some(Fragment(server, request.requestId, json)))
  }

  /** A status of 400 or more gives the fixed server-error fragment and leaves `json` unset;
      any other status sets `json` to the lookup under the provider's prefix, and a reply
      without that record reads as "Status unavailable". */
  lemma ServerErrorSkipsLookup(server: string, options: RunOptions, request: Request, reply: Reply)
    ensures var c := ContextFor(server, options, request, reply);
      && (reply.status >= 400 <==> c.json == Unset)
      && (reply.status >= 400 ==> c.report == Some(ServerErrorReport(request.requestId)))
      && (reply.status < 400 ==> c.json == Set(Lookup(reply.document, ProviderKeys(server))))
      && (reply.status < 400 && Lookup(reply.document, ProviderKeys(server)) == None ==>
            c.report == Some(StatusUnavailable(request.requestId)))
  {
  }

  /** The state of every response, in request order. */
  function PipelineContexts(options: RunOptions, network: Network): (cs: seq<Context>)
    ensures |cs| == |options.requests|
    ensures forall i :: 0 <= i < |cs| ==>
      cs[i].options == options && cs[i].request == options.requests[i] && cs[i].report.Some?
    ensures forall i :: 0 <= i < |cs| ==>
      cs[i] == ContextFor(options.server, options, options.requests[i], Answer(network, options, options.requests[i]))
  {
    seq(|options.requests|, i requires 0 <= i < |options.requests| =>
      ContextFor(options.server, options, options.requests[i], Answer(network, options, options.requests[i])))
  }

  /** `fetchStatus`: posts the envelope of the request to the options' URL. */
  method FetchStatus(options: RunOptions, request: Request, network: Network) returns (response: Response)
    ensures fresh(response)
    ensures response.status == Answer(network, options, request).status
    ensures response.document == Answer(network, options, request).document
    ensures response.prco == None
  {
    var body := GetXml(options.server, options.username, options.password, request.requestId);
    response := new Response(network(options.url, body));
  }

  /** The two `then` steps `fetchResponses` runs on a response: attach `{options, request}`,
      then either the server-error fragment or the looked-up `json` and its fragment. */
  method AttachState(response: Response, options: RunOptions, request: Request)
    modifies response
    ensures response.prco == Some(ContextFor(options.server, options, request, Reply(response.status, response.document)))
  {
    response.prco := Some(Context(options, request, Unset, None));
    if HasServerError(response.status) {
      response.prco := Some(response.prco.value.(report := Some(ServerErrorReport(request.requestId))));
      return;
    }
    response.prco := Some(response.prco.value.(json := Set(Xml2Json(options.server, response.document))));
    var report := ReportFromJson(response);
    response.prco := Some(response.prco.value.(report := Some(report)));
  }

  /** The promise chain `fetchResponses` builds for one request. */
  method FetchOne(options: RunOptions, request: Request, network: Network) returns (response: Response)
    ensures fresh(response)
    ensures response.prco == Some(ContextFor(options.server, options, request, Answer(network, options, request)))
  {
    response := FetchStatus(options, request, network);
    AttachState(response, options, request);
  }

  /** `fetchResponses`, one request after the other: each response gets `{options, request}`,
      then either the server-error fragment or the looked-up `json` and its fragment. */
  method FetchResponses(options: RunOptions, network: Network) returns (responses: seq<Response>)
    ensures |responses| == |options.requests|
    ensures forall i :: 0 <= i < |responses| ==> fresh(responses[i])
    ensures forall i, j :: 0 <= i < j < |responses| ==> responses[i] != responses[j]
    ensures forall i :: 0 <= i < |responses| ==> responses[i].prco == Some(PipelineContexts(options, network)[i])
  {
    ghost var cs := PipelineContexts(options, network);
    responses := [];
    for i := 0 to |options.requests|
      invariant |responses| == i
      invariant forall j :: 0 <= j < i ==> fresh(responses[j])
      invariant forall j, k :: 0 <= j < k < i ==> responses[j] != responses[k]
      invariant forall j :: 0 <= j < i ==> responses[j].prco == Some(cs[j])
    {
      var response := FetchOne(options, options.requests[i], network);
      assert response.prco == Some(cs[i]);
      assert forall j :: 0 <= j < i ==> responses[j] != response;
      assert forall j :: 0 <= j < i ==> responses[j].prco == Some(cs[j]);
      ghost var extended := responses + [response];
      assert forall j :: 0 <= j < i ==> extended[j] == responses[j];
      assert forall j :: 0 <= j <= i ==> extended[j].prco == Some(cs[j]);
      responses := responses + [response];
    }
  }

  // ---------------------------------------------------------------------------
  // isReasonToAbortDownload and downloadReport

  /** Why a download is skipped, in the order the checks run. */
  datatype AbortReason = MissingReportUrl | MissingHierarchicalFolder | ReportAlreadyExists

  /** The key of the report URL in a provider's record. */
  function ReportUrlKey(server: string): string {
    if server == "wis" then "Report" else "report"
  }

  /** `_.get(prco, "json.Report")` (or `json.report`): absent when `json` is unset, null or a leaf. */
  function ReportUrl(server: string, json: JsonSlot): Option<Node> {
    match JsonValue(json)
    case None => None
    case Some(record) => FieldValue(record, ReportUrlKey(server))
  }

  /** The folder the report of a request goes to: the request's folder under the report folder. */
  function ReportFolder(c: Context): Path {
    JoinPath(c.options.reportFolder, c.request.folderPath)
  }

  /** What `isReasonToAbortDownload` decides for the state `c` over the existing paths `entries`. */
  function AbortDecision(server: string, c: Context, entries: set<Path>): Option<AbortReason> {
    var folder := ReportFolder(c);
    if !TruthyOpt(ReportUrl(server, c.json)) then Some(MissingReportUrl)
    else if Dirname(folder) !in entries then Some(MissingHierarchicalFolder)
    else if PdfPath(folder) in AfterConfirm(entries, folder) then Some(ReportAlreadyExists)
    else None
  }

  /** The existing paths after `isReasonToAbortDownload`: untouched when the URL is missing,
      otherwise as `confirmHierarchicalFolder` leaves them. */
  function AfterAbortCheck(server: string, c: Context, entries: set<Path>): set<Path> {
    if !TruthyOpt(ReportUrl(server, c.json)) then entries else AfterConfirm(entries, ReportFolder(c))
  }

  /** The three checks in their order: each reason holds exactly when the earlier checks pass
      and its own fails, and nothing aborts exactly when all three pass. */
  lemma AbortDecisionOrder(server: string, c: Context, entries: set<Path>)
    ensures var url := TruthyOpt(ReportUrl(server, c.json));
      var parent := Dirname(ReportFolder(c)) in entries;
      var pdf := PdfPath(ReportFolder(c)) in entries;
      && (AbortDecision(server, c, entries) == Some(MissingReportUrl) <==> !url)
      && (AbortDecision(server, c, entries) == Some(MissingHierarchicalFolder) <==> url && !parent)
      && (AbortDecision(server, c, entries) == Some(ReportAlreadyExists) <==> url && parent && pdf)
      && (AbortDecision(server, c, entries) == None <==> url && parent && !pdf)
  {
    var folder := ReportFolder(c);
    assert PdfPath(folder) != folder;
  }

  /** The check touches the file system only after the URL check passes, and then adds at most
      the report folder. */
  lemma AbortCheckFrame(server: string, c: Context, entries: set<Path>)
    ensures !TruthyOpt(ReportUrl(server, c.json)) ==> AfterAbortCheck(server, c, entries) == entries
    ensures entries <= AfterAbortCheck(server, c, entries) <= entries + {ReportFolder(c)}
  {
    ConfirmCreatesAtMostTheLeaf(entries, ReportFolder(c));
  }

  /** `isReasonToAbortDownload`, answering the reason it logs (`true` is `Some`). */
  method IsReasonToAbortDownload(fs: FileSystem, response: Response) returns (reason: Option<AbortReason>)
    requires response.prco.Some?
    modifies fs
    ensures reason == AbortDecision(response.prco.value.options.server, response.prco.value, old(fs.entries))
    ensures fs.entries == AfterAbortCheck(response.prco.value.options.server, response.prco.value, old(fs.entries))
  {
    var c := response.prco.value;
    var folderPath := JoinPath(c.options.reportFolder, c.request.folderPath);
    var missingReportUrl := !TruthyOpt(ReportUrl(c.options.server, c.json));
    if missingReportUrl {
      return Some(MissingReportUrl);
    }
    var confirmed := fs.ConfirmHierarchicalFolder(folderPath);
    if !confirmed {
      return Some(MissingHierarchicalFolder);
    }
    var reportAlreadyExists := fs.Exists(PdfPath(folderPath));
    if reportAlreadyExists {
      return Some(ReportAlreadyExists);
    }
    return None;
  }

  /** How `downloadReport` settles: "aborted", "download complete" once the fetched report is
      streamed into its file, or undefined when fetching the report fails. */
  datatype Download = Aborted(reason: AbortReason) | Completed(reportUrl: Node, filePath: Path) | Failed(reportUrl: Node, filePath: Path)

  /** The outcome of `downloadReport` for the state `c` over `entries`, with `fetchable` telling
      which report URLs the HTTP client can fetch. */
  function DownloadStep(server: string, c: Context, entries: set<Path>, fetchable: Node -> bool): Download {
    match AbortDecision(server, c, entries)
    case Some(reason) => Aborted(reason)
    case None =>
      var reportUrl := ReportUrl(server, c.json).value;
      var filePath := PdfPath(ReportFolder(c));
      if fetchable(reportUrl) then Completed(reportUrl, filePath) else Failed(reportUrl, filePath)
  }

  /** `downloadReport` up to the point where it hands the URL to `downloadFile`: the checks run
      at once, the report file is written only when the fetch settles (`SettleDownloads`). */
  method DownloadReport(fs: FileSystem, response: Response, fetchable: Node -> bool) returns (outcome: Download)
    requires response.prco.Some?
    modifies fs
    ensures outcome == DownloadStep(response.prco.value.options.server, response.prco.value, old(fs.entries), fetchable)
    ensures fs.entries == AfterAbortCheck(response.prco.value.options.server, response.prco.value, old(fs.entries))
  {
    var reason := IsReasonToAbortDownload(fs, response);
    if reason.Some? {
      return Aborted(reason.value);
    }
    var c := response.prco.value;
    var folderPath := JoinPath(c.options.reportFolder, c.request.folderPath);
    var reportUrl := ReportUrl(c.options.server, c.json).value;
    var filePath := PdfPath(folderPath);
    if fetchable(reportUrl) {
      outcome := Completed(reportUrl, filePath);
    } else {
      outcome := Failed(reportUrl, filePath);
    }
  }

  /** A download that completes writes the report file of its folder, and that folder exists
      once the checks have run. */
  lemma CompletedFolderExists(server: string, c: Context, entries: set<Path>, fetchable: Node -> bool)
    ensures DownloadStep(server, c, entries, fetchable).Completed? ==>
      && DownloadStep(server, c, entries, fetchable).filePath == PdfPath(ReportFolder(c))
      && Dirname(DownloadStep(server, c, entries, fetchable).filePath) in AfterAbortCheck(server, c, entries)
  {
  }

  /** Once a download completed and its file is written, the same request aborts with
      "Report already exists" and changes nothing: downloading is idempotent. */
  lemma DownloadIsIdempotent(server: string, c: Context, entries: set<Path>, fetchable: Node -> bool)
    requires DownloadStep(server, c, entries, fetchable).Completed?
    ensures var after := AfterAbortCheck(server, c, entries) + {DownloadStep(server, c, entries, fetchable).filePath};
      && DownloadStep(server, c, after, fetchable) == Aborted(ReportAlreadyExists)
      && AfterAbortCheck(server, c, after) == after
  {
    var folder := ReportFolder(c);
    var after := AfterAbortCheck(server, c, entries) + {PdfPath(folder)};
    assert folder in after && PdfPath(folder) in after;
    assert AfterConfirm(after, folder) == after;
  }

  /** An existing report file is never downloaded again, whatever the other checks say. */
  lemma ExistingReportIsKept(server: string, c: Context, entries: set<Path>, fetchable: Node -> bool)
    requires PdfPath(ReportFolder(c)) in entries
    ensures DownloadStep(server, c, entries, fetchable).Aborted?
  {
  }

  /** A response with an HTTP error, or whose reply lacks the provider's record, is never downloaded
      and leaves the file system untouched. */
  lemma FailedStatusNeverDownloads(server: string, options: RunOptions, request: Request, reply: Reply,
                                   entries: set<Path>, fetchable: Node -> bool)
    requires reply.status >= 400 || Lookup(reply.document, ProviderKeys(server)) == None
    ensures var c := ContextFor(server, options, request, reply);
      && DownloadStep(server, c, entries, fetchable) == Aborted(MissingReportUrl)
      && AfterAbortCheck(server, c, entries) == entries
  {
  }

  // ---------------------------------------------------------------------------
  // downloadReports and the settling downloads

  /** The provider whose report key the gatekeeper reads: the options' server, or "wis"
      for the wis-only pipeline. */
  function Provider(wisOnly: bool, c: Context): string {
    if wisOnly then "wis" else c.options.server
  }

  /** `downloadReports`, one response after the other: the outcomes in order and the paths
      that exist once every check has run (no report file is written yet). */
  function DownloadRun(wisOnly: bool, cs: seq<Context>, entries: set<Path>, fetchable: Node -> bool): (seq<Download>, set<Path>)
  {
    if cs == [] then ([], entries)
    else
      var before := DownloadRun(wisOnly, cs[..|cs| - 1], entries, fetchable);
      var last := cs[|cs| - 1];
      var server := Provider(wisOnly, last);
      (before.0 + [DownloadStep(server, last, before.1, fetchable)], AfterAbortCheck(server, last, before.1))
  }

  /** The report files the completed downloads write. */
  function Written(outcomes: seq<Download>): set<Path> {
    set i | 0 <= i < |outcomes| && outcomes[i].Completed? :: outcomes[i].filePath
  }

  /** The paths that exist once every started download has settled. */
  function Settled(wisOnly: bool, cs: seq<Context>, entries: set<Path>, fetchable: Node -> bool): set<Path> {
    var run := DownloadRun(wisOnly, cs, entries, fetchable);
    run.1 + Written(run.0)
  }

  /** The report folders and report files of the given states. */
  function Targets(cs: seq<Context>): set<Path> {
    if cs == [] then {}
    else Targets(cs[..|cs| - 1]) + {ReportFolder(cs[|cs| - 1]), PdfPath(ReportFolder(cs[|cs| - 1]))}
  }

  lemma WrittenStep(outcomes: seq<Download>, d: Download)
    ensures Written(outcomes + [d]) == Written(outcomes) + (if d.Completed? then {d.filePath} else {})
  {
    var extended := outcomes + [d];
    assert forall i :: 0 <= i < |outcomes| ==> extended[i] == outcomes[i];
    assert extended[|outcomes|] == d;
  }

  /** A batch of downloads yields one outcome per response, never removes a path, and every
      completed download finds its folder in place when it settles. */
  lemma {:induction false} DownloadRunFrame(wisOnly: bool, cs: seq<Context>, entries: set<Path>, fetchable: Node -> bool)
    ensures var run := DownloadRun(wisOnly, cs, entries, fetchable);
      && |run.0| == |cs|
      && entries <= run.1
      && forall p :: p in Written(run.0) ==> Dirname(p) in run.1
    decreases |cs|
  {
    if cs != [] {
      var init := cs[..|cs| - 1];
      var before := DownloadRun(wisOnly, init, entries, fetchable);
      var last := cs[|cs| - 1];
      var server := Provider(wisOnly, last);
      var d := DownloadStep(server, last, before.1, fetchable);
      var after := AfterAbortCheck(server, last, before.1);
      DownloadRunFrame(wisOnly, init, entries, fetchable);
      AbortCheckFrame(server, last, before.1);
      CompletedFolderExists(server, last, before.1, fetchable);
      WrittenStep(before.0, d);
      assert DownloadRun(wisOnly, cs, entries, fetchable) == (before.0 + [d], after);
      assert before.1 <= after;
    }
  }

  /** Once every download has settled, the batch has added only the report folders and report
      files of its responses. */
  lemma {:induction false} DownloadRunBounded(wisOnly: bool, cs: seq<Context>, entries: set<Path>, fetchable: Node -> bool)
    ensures Settled(wisOnly, cs, entries, fetchable) <= entries + Targets(cs)
    decreases |cs|
  {
    if cs != [] {
      var init := cs[..|cs| - 1];
      var before := DownloadRun(wisOnly, init, entries, fetchable);
      var last := cs[|cs| - 1];
      var server := Provider(wisOnly, last);
      var d := DownloadStep(server, last, before.1, fetchable);
      var after := AfterAbortCheck(server, last, before.1);
      var folder := ReportFolder(last);
      DownloadRunBounded(wisOnly, init, entries, fetchable);
      AbortCheckFrame(server, last, before.1);
      CompletedFolderExists(server, last, before.1, fetchable);
      WrittenStep(before.0, d);
      assert Targets(cs) == Targets(init) + {folder, PdfPath(folder)};
      assert Written(before.0 + [d]) <= Written(before.0) + {PdfPath(folder)};
      assert Settled(wisOnly, cs, entries, fetchable) == after + Written(before.0 + [d]);
      BoundStep(entries, Targets(init), before.1, Written(before.0), after, Written(before.0 + [d]),
                folder, PdfPath(folder));
    }
  }

  /** The set reasoning of one step of `DownloadRunBounded`. */
  lemma BoundStep(entries: set<Path>, targets: set<Path>, before: set<Path>, written: set<Path>,
                  after: set<Path>, written': set<Path>, folder: Path, file: Path)
    requires before + written <= entries + targets
    requires after <= before + {folder}
    requires written' <= written + {file}
    ensures after + written' <= entries + (targets + {folder, file})
  {
  }

  /** Two requests for the same folder in one batch both download, into the same report file:
      every check runs before any report file is written, so the second check does not see
      the first file. */
  lemma SameFolderDownloadsTwice(c1: Context, c2: Context, entries: set<Path>, fetchable: Node -> bool)
    requires ReportFolder(c1) == ReportFolder(c2)
    requires DownloadStep(c1.options.server, c1, entries, fetchable).Completed?
    requires DownloadStep(c2.options.server, c2, entries, fetchable).Completed?
    ensures var d1 := DownloadStep(c1.options.server, c1, entries, fetchable);
      var d2 := DownloadStep(c2.options.server, c2, entries, fetchable);
      && DownloadRun(false, [c1, c2], entries, fetchable).0 == [d1, d2]
      && d1.filePath == d2.filePath
  {
    var folder := ReportFolder(c1);
    var s1 := c1.options.server;
    var s2 := c2.options.server;
    var d1 := DownloadStep(s1, c1, entries, fetchable);
    var d2 := DownloadStep(s2, c2, entries, fetchable);
    var after := AfterAbortCheck(s1, c1, entries);
    assert [c1][..0] == [];
    assert DownloadRun(false, [c1][..0], entries, fetchable) == ([], entries);
    assert Provider(false, c1) == s1 && Provider(false, c2) == s2;
    assert [] + [d1] == [d1];
    assert DownloadRun(false, [c1], entries, fetchable) == ([d1], after);
    assert [c1, c2][..1] == [c1];
    assert after == entries + {folder};
    assert PdfPath(folder) != folder && PdfPath(folder) !in entries;
    assert AfterConfirm(after, folder) == after;
    assert DownloadStep(s2, c2, after, fetchable) == d2;
  }

  /** The states attached to the responses, in order. */
  function Contexts(responses: seq<Response>): (cs: seq<Context>)
    reads set i | 0 <= i < |responses| :: responses[i]
    requires forall i :: 0 <= i < |responses| ==> responses[i].prco.Some?
    ensures |cs| == |responses|
    ensures forall i :: 0 <= i < |responses| ==> cs[i] == responses[i].prco.value
  {
    if responses == [] then []
    else Contexts(responses[..|responses| - 1]) + [responses[|responses| - 1].prco.value]
  }

  lemma DownloadRunStep(wisOnly: bool, cs: seq<Context>, i: nat, entries: set<Path>, fetchable: Node -> bool)
    requires i < |cs|
    ensures var before := DownloadRun(wisOnly, cs[..i], entries, fetchable);
      var server := Provider(wisOnly, cs[i]);
      DownloadRun(wisOnly, cs[..i + 1], entries, fetchable) ==
        (before.0 + [DownloadStep(server, cs[i], before.1, fetchable)], AfterAbortCheck(server, cs[i], before.1))
  {
    assert cs[..i + 1][..i] == cs[..i];
  }

  /** `downloadReports`: `downloadReport` on every response, in order, without waiting for
      any download to settle. */
  method DownloadReports(fs: FileSystem, responses: seq<Response>, fetchable: Node -> bool) returns (outcomes: seq<Download>)
    requires forall i :: 0 <= i < |responses| ==> responses[i].prco.Some?
    modifies fs
    ensures (outcomes, fs.entries) == DownloadRun(false, old(Contexts(responses)), old(fs.entries), fetchable)
  {
    ghost var cs := Contexts(responses);
    outcomes := [];
    assert cs[..0] == [];
    for i := 0 to |responses|
      invariant (outcomes, fs.entries) == DownloadRun(false, cs[..i], old(fs.entries), fetchable)
    {
      var outcome := DownloadReport(fs, responses[i], fetchable);
      DownloadRunStep(false, cs, i, old(fs.entries), fetchable);
      outcomes := outcomes + [outcome];
    }
    assert cs[..|responses|] == cs;
  }

  /** The `then` callbacks of `downloadFile`, which run once every download has started: each
      completed download streams its report into `createWriteStream(filePath)`. */
  method SettleDownloads(fs: FileSystem, outcomes: seq<Download>)
    requires forall p :: p in Written(outcomes) ==> Dirname(p) in fs.entries
    modifies fs
    ensures fs.entries == old(fs.entries) + Written(outcomes)
  {
    assert outcomes[..0] == [];
    for i := 0 to |outcomes|
      invariant fs.entries == old(fs.entries) + Written(outcomes[..i])
    {
      WrittenStep(outcomes[..i], outcomes[i]);
      assert outcomes[..i + 1] == outcomes[..i] + [outcomes[i]];
      if outcomes[i].Completed? {
        assert outcomes[i].filePath in Written(outcomes);
        fs.WriteFile(outcomes[i].filePath);
      }
    }
    assert outcomes[..|outcomes|] == outcomes;
  }

  // ---------------------------------------------------------------------------
  // printReport

  /** What printing the report comes to: nothing (the wis pipeline under tests), the text,
      or a TypeError because there is no first response to take the options from. */
  datatype Printout = Silent | Printed(text: string) | Crash

  function Header(server: string, environment: string): string {
    "\nprco-check-status\nserver: " + server + "\nenvironment: " + environment + "\n"
  }

  const Trailer: string := "\n\nFinished\n\n"

  /** The printed text: the header, the fragments joined by line breaks, then the trailer. */
  function PrintedReport(server: string, environment: string, reports: seq<string>): string {
    Header(server, environment) + JoinWith(reports, "\n") + Trailer
  }

  /** `_.get(res, "prco.report", "")`. */
  function ReportOf(prco: Option<Context>): string {
    match prco
    case None => ""
    case Some(c) => if c.report.Some? then c.report.value else ""
  }

  /** The fragments of the responses, in order. */
  function ReportsOf(responses: seq<Response>): (r: seq<string>)
    reads set i | 0 <= i < |responses| :: responses[i]
    ensures |r| == |responses|
    ensures forall i :: 0 <= i < |responses| ==> r[i] == ReportOf(responses[i].prco)
  {
    if responses == [] then []
    else ReportsOf(responses[..|responses| - 1]) + [ReportOf(responses[|responses| - 1].prco)]
  }

  /** `printReport` of check-status.js: the report text built from the first response's options
      and every response's fragment; a crash when there is no first response to read. */
  function PrintReport(responses: seq<Response>): (out: Printout)
    reads set i | 0 <= i < |responses| :: responses[i]
    ensures out != Silent
    ensures out.Crash? <==> responses == [] || responses[0].prco.None?
    ensures out.Printed? ==>
      var options := responses[0].prco.value.options;
      var header := Header(options.server, options.environment);
      && |out.text| >= |header| + |Trailer|
      && out.text[..|header|] == header
      && out.text[|out.text| - |Trailer|..] == Trailer
  {
    if responses == [] || responses[0].prco.None? then Crash
    else
      var options := responses[0].prco.value.options;
      PrintedReportInOrder(options.server, options.environment, ReportsOf(responses), "");
      Printed(PrintedReport(options.server, options.environment, ReportsOf(responses)))
  }

  lemma {:induction false} JoinWithAppend(parts: seq<string>, x: string, sep: string)
    requires parts != []
    ensures JoinWith(parts + [x], sep) == JoinWith(parts, sep) + sep + x
    decreases |parts|
  {
    if |parts| == 1 {
      assert parts + [x] == [parts[0], x];
    } else {
      assert (parts + [x])[1..] == parts[1..] + [x];
      JoinWithAppend(parts[1..], x, sep);
    }
  }

  /** The report text opens with the header and closes with the trailer, and each further
      fragment is appended after a line break, so the fragments appear in response order. */
  lemma PrintedReportInOrder(server: string, environment: string, reports: seq<string>, x: string)
    ensures var text := PrintedReport(server, environment, reports);
      var header := Header(server, environment);
      && |text| >= |header| + |Trailer|
      && text[..|header|] == header
      && text[|text| - |Trailer|..] == Trailer
    ensures reports != [] ==>
      PrintedReport(server, environment, reports + [x]) ==
        Header(server, environment) + JoinWith(reports, "\n") + "\n" + x + Trailer
  {
    var header := Header(server, environment);
    var text := PrintedReport(server, environment, reports);
    assert text == header + (JoinWith(reports, "\n") + Trailer);
    assert text[..|header|] == header;
    assert text == (header + JoinWith(reports, "\n")) + Trailer;
    assert text[|text| - |Trailer|..] == Trailer;
    if reports != [] {
      JoinWithAppend(reports, x, "\n");
    }
  }

  // ---------------------------------------------------------------------------
  // checkStatus

  /** The fragments of the given states, in order. */
  function ReportTexts(cs: seq<Context>): (r: seq<string>)
    ensures |r| == |cs|
    ensures forall i :: 0 <= i < |cs| ==> r[i] == ReportOf(Some(cs[i]))
  {
    seq(|cs|, i requires 0 <= i < |cs| => ReportOf(Some(cs[i])))
  }

  lemma ContextsAre(responses: seq<Response>, cs: seq<Context>)
    requires |responses| == |cs|
    requires forall i :: 0 <= i < |responses| ==> responses[i].prco == Some(cs[i])
    ensures Contexts(responses) == cs
  {
    var rs := Contexts(responses);
    assert forall i :: 0 <= i < |cs| ==> rs[i] == cs[i];
  }

  lemma ReportsAre(responses: seq<Response>, cs: seq<Context>)
    requires |responses| == |cs|
    requires forall i :: 0 <= i < |responses| ==> responses[i].prco == Some(cs[i])
    ensures ReportsOf(responses) == ReportTexts(cs)
  {
    var rs := ReportsOf(responses);
    var ts := ReportTexts(cs);
    assert forall i :: 0 <= i < |cs| ==> rs[i] == ts[i];
  }

  /** Responses that carry the states `cs`, all built from `options`, read back as those
      states, and printing them comes to the report of those states. */
  lemma PrintedStates(responses: seq<Response>, options: RunOptions, cs: seq<Context>)
    requires |responses| == |cs|
    requires forall i :: 0 <= i < |responses| ==> responses[i].prco == Some(cs[i]) && cs[i].options == options
    ensures Contexts(responses) == cs
    ensures PrintReport(responses) ==
      if cs == [] then Crash else Printed(PrintedReport(options.server, options.environment, ReportTexts(cs)))
  {
    ContextsAre(responses, cs);
    ReportsAre(responses, cs);
  }

  /** `checkStatus`: fetches every request, prints the report, then starts the downloads, which
      settle afterwards; the downloads never start when printing fails. Everything it produces is determined
      by the options, the network and the file system it starts from. */
  method CheckStatusRun(options: RunOptions, network: Network, fs: FileSystem, fetchable: Node -> bool)
    returns (responses: seq<Response>, printout: Printout, outcomes: seq<Download>)
    modifies fs
    ensures |responses| == |options.requests|
    ensures forall i :: 0 <= i < |responses| ==> fresh(responses[i])
    ensures forall i :: 0 <= i < |responses| ==> responses[i].prco == Some(PipelineContexts(options, network)[i])
    ensures options.requests == [] ==> printout == Crash && outcomes == [] && fs.entries == old(fs.entries)
    ensures options.requests != [] ==>
      printout == Printed(PrintedReport(options.server, options.environment, ReportTexts(PipelineContexts(options, network))))
    ensures options.requests != [] ==>
      outcomes == DownloadRun(false, PipelineContexts(options, network), old(fs.entries), fetchable).0
    ensures options.requests != [] ==>
      fs.entries == Settled(false, PipelineContexts(options, network), old(fs.entries), fetchable)
  {
    responses := FetchResponses(options, network);
    ghost var cs := PipelineContexts(options, network);
    printout, outcomes := PrintAndDownload(fs, responses, options, cs, fetchable);
  }

  /** The `then` steps of `checkStatus` after the fetch, on responses that carry the states
      `cs`: the report is printed, then the downloads start and settle, unless printing failed. */
  method PrintAndDownload(fs: FileSystem, responses: seq<Response>, ghost options: RunOptions, ghost cs: seq<Context>,
                          fetchable: Node -> bool)
    returns (printout: Printout, outcomes: seq<Download>)
    requires |responses| == |cs|
    requires forall i :: 0 <= i < |responses| ==> responses[i].prco == Some(cs[i]) && cs[i].options == options
    modifies fs
    ensures cs == [] ==> printout == Crash && outcomes == [] && fs.entries == old(fs.entries)
    ensures cs != [] ==> printout == Printed(PrintedReport(options.server, options.environment, ReportTexts(cs)))
    ensures cs != [] ==> outcomes == DownloadRun(false, cs, old(fs.entries), fetchable).0
    ensures cs != [] ==> fs.entries == Settled(false, cs, old(fs.entries), fetchable)
  {
    PrintedStates(responses, options, cs);
    printout := PrintReport(responses);
    if printout.Crash? {
      return printout, [];
    }
    outcomes := DownloadReports(fs, responses, fetchable);
    DownloadRunFrame(false, cs, old(fs.entries), fetchable);
    SettleDownloads(fs, outcomes);
  }

}
