# prco-check-status, modelled in Dafny

prco-check-status is a command-line tool. It asks an inspection provider ("wis"
or "oneguard") for the status of a list of inspection requests, prints one
report for all of them, and downloads each request's PDF report into a folder of
its own. This project models the three decision-making parts of the tool and
proves properties about them:

- **Option and request validation** (`src/utils/get-options.js`), in
  `get_options.dfy`. This covers:
  - the eight required environment variables and the splitting of the two
    credentials variables;
  - the `id,folder` request strings;
  - the reasons collected for a bad environment, server or request list, and
    the error that carries them;
  - the choice of credentials, report folder and URL for the chosen server;
  - the filtering down to the seven run options.
- **The per-request status pipeline** (`src/modules/check-status/check-status.js`),
  in `check_status.dfy`. This covers:
  - the SOAP envelope posted for each request;
  - the HTTP-error classification;
  - the key-path lookup of the provider's record in the parsed reply;
  - the report fragment for each request;
  - the printed report.

  Each response object gets its `prco` state attached in place. This is modelled
  by a `Response` class whose `prco` field the methods update.
- **The download gatekeeper**, in `paths.dfy` and `check_status.dfy`. This covers:
  - `confirmHierarchicalFolder`;
  - `isReasonToAbortDownload`, with its three ordered checks;
  - `downloadReport`, `downloadReports` and the writing of the report files.

  The file system is a `FileSystem` class holding the set of existing paths, and
  a path is a sequence of segments.
- **The wis-only predecessor pipeline** (`src/modules/wis/wis.js`), in `wis.dfy`.
  It attaches its state under `wis`, always uses the wis envelope, prefix and
  fields, and prints nothing while the test runner is active.

`js.dfy` holds the pieces of JavaScript semantics the code relies on:
- truthiness and the `${}` rendering of a parsed value;
- `parseInt`, `trim`, `split` and `join`;
- the key-path lookup of lodash's `_.get`.

The outside world is represented by parameters:
- **The network** is a function from (URL, envelope) to a reply, which holds the
  HTTP status and the already parsed XML document.
- **Report URLs:** the `fetchable` predicate says which URLs the HTTP client
  fetches successfully.
- **`validator.isNumeric` and `path.normalize`** are parameters with no
  interpretation of their own.
- **The command line** comes in as the options map minimist produces, and the
  environment as a string map.

The asynchronous downloads follow the order of the JavaScript event loop. The
`forEach` of `downloadReports` runs every `downloadReport` up to its first
asynchronous step. So every abort check, including the folder it may create,
happens before any report file is written. Each completed fetch then writes
its file when its own HTTP reply arrives, so the files are written in the
order the downloads finish. The model is built that way:
- `DownloadRun` runs the checks;
- `Written` collects the files;
- `Settled` is the final state;
- `SettleDownloads` writes the files one after the other in request order. The
  set of paths it leaves is the same in every order, since each write only adds
  its own path.

A consequence, proved in `SameFolderDownloadsTwice`, is that two requests for
the same folder in one run both download, into the same report file.

## Model

| member | source | states |
|---|---|---|
| Js.ParseIntOfIntToString | src/modules/check-status/check-status.js:228-232 | `parseInt(String(n), 10)` gives back `n` for every integer, so reading the status back is exact |
| Js.TrimFrame | src/modules/check-status/check-status.js:222 | trimming a text framed by white space gives exactly the text between the frames |
| Js.TrimTail | src/modules/check-status/check-status.js:222 | trimming a text that starts and ends with a non-space and is followed by white space gives exactly the text |
| Js.LookupLast | src/modules/check-status/check-status.js:177 | `_.get` along a path yields the value under the last key of the element the other keys lead to, and nothing when there is none |
| Js.LookupMissing | src/modules/check-status/check-status.js:177 | `_.get` finds no value exactly when the walk along the path stops at one of its keys, at a leaf or at an element without that key |
| Js.SplitJoin | src/modules/check-status/check-status.js:169-177 | splitting the joined keys on "." gives back the keys when none holds a "." |
| Paths.PdfPath | src/modules/check-status/check-status.js:109-110 | the report file lies directly in its folder and is named after the folder's basename plus ".pdf" |
| Paths.JoinPathIsJoinedText | src/modules/check-status/check-status.js:45 | joining the report folder and the request folder reads the same segments as the text "base/rel" |
| Paths.ConfirmCreatesAtMostTheLeaf | src/modules/check-status/check-status.js:12-28 | with no parent nothing is added; with a parent the folder exists afterwards; nothing but the folder is ever added |
| Paths.FileSystem.ConfirmHierarchicalFolder | src/modules/check-status/check-status.js:12-28 | answers true exactly when the parent existed, and leaves exactly `AfterConfirm` (the folder added iff the parent exists); wis.js:12-28 is the same code |
| Paths.FileSystem.WriteFile | src/modules/check-status/check-status.js:86 | creating the write stream adds exactly the file, in an existing folder |
| GetOptions.ThrowErrorCarriesReason | src/utils/get-options.js:37-42 | the reason can be read back from the thrown message (reason framed by line breaks, then the usage), so distinct reasons give distinct errors |
| GetOptions.ValidRequests | src/utils/get-options.js:93-118 | the result is "Invalid request" if any request lacks an id or folder, otherwise the concatenated non-numeric reasons if any, otherwise the requests |
| GetOptions.ValidRequestsInOrder | src/utils/get-options.js:96-117 | on success there is one request per input, in order, holding the id and the normalised folder piece |
| GetOptions.NonNumericReasonsEmpty | src/utils/get-options.js:102-104 | no reason is collected exactly when every request id is numeric |
| GetOptions.OnlyFirstTwoPieces | src/utils/get-options.js:97 | the id is the text before the first ",", the folder the text up to the second; anything after a second "," is ignored |
| GetOptions.WithoutCommaIsMalformed | src/utils/get-options.js:97-100 | a request with no "," is rejected as "Invalid request" |
| GetOptions.MissingEnvReasonEmpty | src/utils/get-options.js:58-66 | the missing-variable reason is empty exactly when every required variable is defined |
| GetOptions.ValidatedEnv | src/utils/get-options.js:44-91 | the loop collects one line per missing variable and throws after all are checked; then each credentials variable is split or rejected; the result equals `ValidatedEnvSpec` |
| GetOptions.ValidatedEnvSpec | src/utils/get-options.js:44-91 | on success the variables object has exactly the eight names and the four credential names (so every variable the server settings read is defined), and both credentials variables were defined |
| GetOptions.ValidatedEnvContents | src/utils/get-options.js:58-80 | on success every required variable is copied unchanged, and each username/password pair is exactly the split of its credentials variable |
| GetOptions.ValidatedEnvMissing | src/utils/get-options.js:58-66 | the environment is rejected with the list of missing names exactly when a name is missing |
| GetOptions.CredentialsSplit | src/utils/get-options.js:69-78 | "user,password" yields the two halves, a third piece is ignored, a text without "," is rejected |
| GetOptions.GetFilteredObjectOfEntries | src/utils/get-options.js:120-121 | `Object.fromEntries` of the entries filtered by key is the object restricted to the allowed keys, for any order of the entries |
| GetOptions.OptionsReasonEmpty | src/utils/get-options.js:155-167 | no reason is collected exactly when the environment, the server and the request list are all valid |
| GetOptions.AssignmentKeepsChecked | src/utils/get-options.js:138-167 | assigning the credentials, folder and URL does not change the help flag, the server, the positional arguments or the collected reasons |
| GetOptions.FilterAssigned | src/utils/get-options.js:171-179 | the filtered options hold exactly the seven allowed keys with the assigned values |
| GetOptions.SelectedOptionsChoice | src/utils/get-options.js:138-149 | the run options carry the username, password and report folder of the "wis" variables when the server is "wis" and of the "oneguard" ones otherwise, and the test URL exactly when the environment is "test" |
| GetOptions.CollectReasons | src/utils/get-options.js:155-165 | appends the environment, server and no-requests reasons in that order, each only when its check fails |
| GetOptions.CheckedOptions | src/utils/get-options.js:138-179 | help throws with an empty reason; otherwise the collected reasons are thrown together; otherwise the request error, or the seven selected options |
| GetOptions.ValidatedOptions | src/utils/get-options.js:123-182 | an environment error comes first, then the help flag, the option reasons and the request errors; on success the seven options of the chosen server and environment |
| CheckStatus.InterpolateSlices | src/modules/check-status/check-status.js:186-218 | username, password and request id stand verbatim at fixed offsets between the unchanged fixed pieces of the envelope |
| CheckStatus.TrimWisTemplate | src/modules/check-status/check-status.js:186-200 | trimming the wis template literal leaves exactly the wis envelope, whatever the values |
| CheckStatus.TrimOneguardTemplate | src/modules/check-status/check-status.js:202-218 | trimming the oneguard template literal leaves exactly the oneguard envelope (with `<tpa_code>PRCO</tpa_code>`) |
| CheckStatus.GetXmlTrimsTemplate | src/modules/check-status/check-status.js:185-223 | the envelope sent is the trimmed template literal chosen by the server |
| CheckStatus.GetXmlIsWisExactlyForWis | src/modules/check-status/check-status.js:220 | the wis envelope is sent if and only if the server is "wis" |
| CheckStatus.PrefixesNameKeys | src/modules/check-status/check-status.js:169-175 | the dotted prefixes handed to `_.get` name exactly the provider key paths |
| CheckStatus.Xml2Json | src/modules/check-status/check-status.js:165-180 | a record is found only inside an element |
| CheckStatus.Xml2JsonNeedsEnvelope | src/modules/check-status/check-status.js:177 | a reply without the provider's outer element yields null |
| CheckStatus.Xml2JsonFindsRecord | src/modules/check-status/check-status.js:165-180 | whatever else a reply holds, the result is the value under the prefix's last key in the element its other keys lead to, and null when there is none |
| CheckStatus.Xml2JsonMissing | src/modules/check-status/check-status.js:165-180 | the result is null exactly when some key of the provider's prefix is missing where the walk expects it |
| CheckStatus.HasServerErrorParses | src/modules/check-status/check-status.js:228-232 | a status is a server error if and only if `parseInt(status, 10) >= 400` |
| CheckStatus.TruthyEntriesMembers | src/modules/check-status/check-status.js:140-151 | the listed entries are exactly the fields with a truthy value |
| CheckStatus.FieldLinesAreTruthyLines | src/modules/check-status/check-status.js:140-151 | the field lines are one line per truthy field, in field order, and nothing else |
| CheckStatus.FragmentShape | src/modules/check-status/check-status.js:131-160 | every fragment starts with "\n---\n"; a falsy record gives exactly the "Status unavailable" fragment; otherwise the truthy provider fields, oneguard's after "requestId: {id}" |
| CheckStatus.AppendFieldLines | src/modules/check-status/check-status.js:140-151 | the `map` loop appends exactly the field lines of the truthy fields to the report |
| CheckStatus.ReportFromJson | src/modules/check-status/check-status.js:131-160 | the fragment for the attached state's server, request id and record |
| CheckStatus.ContextFor | src/modules/check-status/check-status.js:261-274 | the attached state keeps the options and the request and always has a report |
| CheckStatus.ServerErrorSkipsLookup | src/modules/check-status/check-status.js:266-272 | a status from 400 up gives the fixed server-error fragment and leaves `json` unset (exactly then); otherwise `json` is the prefix lookup, and a missing record reads "Status unavailable" |
| CheckStatus.PipelineContexts | src/modules/check-status/check-status.js:258-279 | one state per request, in request order: the i-th keeps the options and the i-th request and always has a report fragment |
| CheckStatus.FetchStatus | src/modules/check-status/check-status.js:237-253 | a new response holding the reply to the request's envelope posted to the options' URL, with nothing attached |
| CheckStatus.AttachState | src/modules/check-status/check-status.js:261-274 | the two `then` steps leave exactly the state `ContextFor` describes |
| CheckStatus.FetchOne | src/modules/check-status/check-status.js:260-274 | a new response carrying the state for its request |
| CheckStatus.FetchResponses | src/modules/check-status/check-status.js:258-279 | one distinct new response per request, in request order, the i-th carrying the state of the i-th request |
| CheckStatus.AbortDecisionOrder | src/modules/check-status/check-status.js:47-73 | each reason holds exactly when the earlier checks pass and its own fails (URL, then parent folder, then existing PDF); no abort exactly when all three pass |
| CheckStatus.AbortCheckFrame | src/modules/check-status/check-status.js:51-62 | a falsy URL aborts before the file system is touched; otherwise at most the report folder is added |
| CheckStatus.IsReasonToAbortDownload | src/modules/check-status/check-status.js:33-74 | answers the abort reason the ordered checks give (URL key `Report` for "wis", `report` otherwise) and leaves the paths `AfterAbortCheck` describes |
| CheckStatus.DownloadReport | src/modules/check-status/check-status.js:97-119 | aborted with the check's reason, otherwise the fetch of the report URL into `{folder}/{basename(folder)}.pdf`; the checks' changes only |
| CheckStatus.CompletedFolderExists | src/modules/check-status/check-status.js:110-118 | a completed download targets the folder's report file, and that folder exists once the checks have run |
| CheckStatus.DownloadIsIdempotent | src/modules/check-status/check-status.js:65-71 | once a completed download's file exists, the same request aborts with "Report already exists" and changes nothing |
| CheckStatus.ExistingReportIsKept | src/modules/check-status/check-status.js:65-71 | an existing report file is never downloaded again |
| CheckStatus.FailedStatusNeverDownloads | src/modules/check-status/check-status.js:51-56 | a response with an HTTP error, or without the provider's record, aborts for a missing URL and leaves the file system unchanged |
| CheckStatus.DownloadReports | src/modules/check-status/check-status.js:124-126 | the outcomes and paths of running `downloadReport` on every response in order |
| CheckStatus.SettleDownloads | src/modules/check-status/check-status.js:79-92 | each completed download adds exactly its report file, and nothing else changes |
| CheckStatus.DownloadRunFrame | src/modules/check-status/check-status.js:124-126 | one outcome per response, no path ever removed, and every completed download finds its folder when it settles |
| CheckStatus.DownloadRunBounded | src/modules/check-status/check-status.js:124-126 | a run adds nothing but the report folders and report files of its responses |
| CheckStatus.SameFolderDownloadsTwice | src/modules/check-status/check-status.js:124-126 | two requests with the same folder, each of which would download on its own, both download in one run and into the same file, because no file is written before every check has run |
| CheckStatus.PrintReport | src/modules/check-status/check-status.js:284-297 | a crash exactly when there is no first response to take the options from; otherwise the text opens with the header naming that response's server and environment and closes with the "Finished" trailer |
| CheckStatus.PrintedReportInOrder | src/modules/check-status/check-status.js:286-294 | the text opens with the header and closes with "\n\nFinished\n\n", and each further fragment is appended after a line break |
| CheckStatus.PrintedStates | src/modules/check-status/check-status.js:284-294 | responses carrying the pipeline's states print the header, their fragments in order and the trailer |
| CheckStatus.CheckStatusRun | src/modules/check-status/check-status.js:302-308 | resolves with one new response per request, the i-th carrying the i-th request's state; with no requests: a crash, no download, nothing changed; otherwise the report of every request in order, the outcome of every download, and the paths once all downloads have settled |
| CheckStatus.PrintAndDownload | src/modules/check-status/check-status.js:304-305 | on responses carrying given states: a crash and nothing else when there are none, otherwise the printed report of those states, then their downloads and the settled paths |
| Wis.GetXmlTrimsTemplate | src/modules/wis/wis.js:156-174 | the envelope is the trimmed wis template, the same as the two-provider pipeline's for "wis" |
| Wis.ReportFromJson | src/modules/wis/wis.js:124-138 | the "Status unavailable" fragment on a falsy record, otherwise the separator and the truthy RequestID, Details, Images, Report lines |
| Wis.AugmentResponse | src/modules/wis/wis.js:179-184 | sets `json` to the record under the wis prefix and `report` to its fragment, keeping options and request |
| Wis.InsertOptions | src/modules/wis/wis.js:198-205 | returns the same response, with `wis` set to exactly `{options, request}` |
| Wis.PipelineContexts | src/modules/wis/wis.js:235-250 | one state per request, in request order, read with the wis prefix and fields: the i-th keeps the options and the i-th request and always has a report fragment |
| Wis.SameStatesForWis | src/modules/wis/wis.js:235-250 | for the "wis" server both pipelines attach the same states |
| Wis.FetchStatus | src/modules/wis/wis.js:210-230 | a new response holding the reply to the wis envelope posted to the options' URL |
| Wis.FetchOne | src/modules/wis/wis.js:237-246 | `insertOptions`, then the server-error fragment or `augmentResponse`: the state for its request |
| Wis.FetchResponses | src/modules/wis/wis.js:235-250 | one distinct new response per request, in order, the i-th carrying the state of the i-th request |
| Wis.IsReasonToAbortDownload | src/modules/wis/wis.js:33-69 | the ordered checks with the URL read from `json.Report`, whatever the server |
| Wis.DownloadReport | src/modules/wis/wis.js:92-112 | aborted with the check's reason, otherwise the fetch of `json.Report` into the folder's report file |
| Wis.DownloadReports | src/modules/wis/wis.js:117-119 | the outcomes and paths of running `downloadReport` on every response in order |
| Wis.PrintReport | src/modules/wis/wis.js:255-269 | silent exactly under the test runner; otherwise a crash exactly when there is no first response, else a text opening with the header of that response's server and environment and closing with the "Finished" trailer |
| Wis.PrintedStates | src/modules/wis/wis.js:255-269 | responses carrying the pipeline's states print nothing under tests, otherwise their report in order |
| Wis.WisCheckStatus | src/modules/wis/wis.js:274-280 | resolves with one new response per request, the i-th carrying the i-th request's state under `wis`; under tests: nothing printed and every download run; otherwise as `checkStatus`, with the wis prefix, fields and report key |
| Wis.PrintAndDownload | src/modules/wis/wis.js:276-277 | on responses carrying given states: silent under tests, a crash and nothing else outside tests when there are none, otherwise the printed report; the downloads and settled paths whenever printing did not fail |

## Left out

- HTTP: `fetch`, `axios`, the response bodies and the stream piping are not modelled. The reply to an envelope is a function parameter. Whether fetching a report URL succeeds is a predicate parameter.
- XML parsing (`fast-xml-parser`): the parsed document is the input. Numbers are integers, and repeated elements (arrays) are not represented.
- Concurrency: the promises run in the order of the event loop for a single run, as described above. Races between separate runs of the tool are not modelled.
- The transport-failure path of `fetchStatus` (its `catch` resolves undefined, and the next step then throws) is not modelled. Every request gets a reply.
- A download whose fetch fails logs the error and resolves undefined. It is the `Failed` outcome and writes nothing. The error text is not modelled.
- Console logging is not modelled: the abort messages, the "downloading report" lines and the printed report. The printed text is a value. `isReasonToAbortDownload` returns its reason instead of `true` and a log line.
- CheckStatus.SettleDownloads: the files are written in request order, whereas the source writes each one when its own reply arrives. Only the resulting set of paths is modelled, and it is the same in every order because each write adds just its own path.
- CheckStatus.PrefixesNameKeys: the prefixes are built by joining the provider's keys with ".", not written as the one-piece string literals at check-status.js:169-173. The joined texts are those literals character for character, but that equality of two long literals is not proved.
- CheckStatus.PrintReport: check-status.js prints the text only outside the test runner. The model returns the text it builds either way.
- The test runner's download folder (`__downloads__` under the module directory) is not modelled. The gate always uses the options' report folder.
- `path.join` and `path.dirname` are modelled on segment lists without ".." resolution. `path.normalize` and `validator.isNumeric` are uninterpreted parameters.
- Only the key-path lookup of lodash's `_.get` is modelled, and its default value is `None`. The `""` default of `printReport` never arises, because every attached state has a report.
- The command-line parsing (minimist), the default of "test" for the environment, the env-file existence check, `dotenv` and `HOME` are not modelled. `ValidatedOptions` receives the parsed options and the loaded environment as maps. The `getOptions` wrapper is not modelled.
- The usage text is a constant. `ThrowError` keeps only `errorMessage`, because the `error` member is always the same.
- The second credential loop of `validatedEnv` (get-options.js:82-88) never adds a reason, since all four names were just set. The model leaves it out.
- The trailing-slash branch of `validRequests` computes a substring and discards it. It is modelled as the no-op it is.
- `CheckStatus.GetXml`, `CheckStatus.HasServerError` and `CheckStatus.Xml2Json` are defined by what they compute. The source's own computations (trimming the template literal, `parseInt`, the dotted prefix) are related to them by `GetXmlTrimsTemplate`, `HasServerErrorParses` and `PrefixesNameKeys`.
- src/modules/oneguard/oneguard.js (a placeholder) and src/prco-check-status.js (entry-point wiring) are not part of this model.
