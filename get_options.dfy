/**
 * Validation of the command line and of the environment variables, and the
 * run options they produce (src/utils/get-options.js). The command line comes
 * in already parsed by minimist, the environment already loaded from the env
 * file; `validator.isNumeric` and `path.normalize` are parameters.
 */
module GetOptions {
  import opened Js

  /** One status inquiry: a request id and the folder its report goes to. */
  datatype Request = Request(requestId: string, folderPath: string)

  /** The validated options that the status pipeline runs with. */
  datatype RunOptions = RunOptions(
    server: string,
    environment: string,
    username: string,
    password: string,
    url: string,
    reportFolder: string,
    requests: seq<Request>)

  /** The object that `throwError` throws (its `error` member is always the same `Error`). */
  datatype OptionsError = OptionsError(errorMessage: string)

  datatype Result<T> = Ok(value: T) | Err(error: OptionsError)

  /** A value of the options object: a string option, the positional arguments, or the validated requests. */
  datatype OptValue = Str(s: string) | List(items: seq<string>) | Requests(requests: seq<Request>)

  /** The usage text appended to every error message. */
  const Usage: string :=
    "USAGE:\n\n        prco-check-status [options] requests...\n\n        OPTIONS:\n\n"
    + "            -c, --config_env_file   location of file containing environment variables\n"
    + "                                    defaults to $HOME/protected/check-status-env\n"
    + "            -h, --help              display usage help\n"
    + "            -e, --environment       environment to use: test or production -- defaults to test\n"
    + "            -s, --server            server to call: wis or oneguard\n\n"
    + "        REQUESTS:\n\n            request-id,path-to-download\n\n"
    + "        EXAMPLES:\n\n            prco-check-status -h\n\n"
    + "            prco-check-status -e production -s wis 758317,/a/b 876321,/q/a\n\n"
    + "            prco-check-status --environment test --server oneguard 758317,/a/b 876321,/q/a\n\n\n  "

  /** The reason carried by an error message, when the message has the shape `throwError` gives it. */
  function ReasonOf(message: string): Option<string> {
    var tail := "\n\n" + Usage;
    if |message| >= 1 + |tail| && message[0] == '\n' && message[|message| - |tail|..] == tail
    then Some(message[1..|message| - |tail|])
    else None
  }

  /** `throwError(reason)`: the message is the reason framed by blank lines, then the usage. */
  function ThrowError(reason: string): OptionsError {
    OptionsError("\n" + reason + "\n\n" + Usage)
  }

  /** The reason can be read back from the message `throwError` builds, so distinct reasons
      give distinct errors. */
  lemma ThrowErrorCarriesReason(reason: string)
    ensures ReasonOf(ThrowError(reason).errorMessage) == Some(reason)
  {
    var message := ThrowError(reason).errorMessage;
    assert message[1..|message| - |"\n\n" + Usage|] == reason;
  }

  // ---------------------------------------------------------------------------
  // validRequests

  /** The request id of a raw request: the text before the first ",". */
  function RequestIdOf(raw: string): string {
    Split(raw, ',')[0]
  }

  /** The folder path of a raw request: the text between the first and the second "," (undefined without a ","). */
  function FolderPieceOf(raw: string): Option<string> {
    var pieces := Split(raw, ',');
    if |pieces| > 1 then Some(pieces[1]) else None
  }

  /** The raw requests that `validRequests` rejects at once with "Invalid request". */
  predicate Malformed(raw: string) {
    RequestIdOf(raw) == "" || FolderPieceOf(raw).None? || FolderPieceOf(raw).value == ""
  }

  /** The reason text a raw request adds: nothing when its id is numeric. */
  function NonNumericReason(raw: string, isNumeric: string -> bool): string {
    if isNumeric(RequestIdOf(raw)) then "" else "invalid requestId: non-numeric: " + RequestIdOf(raw)
  }

  /** The reasons of all raw requests, in order, with no separator. */
  function NonNumericReasons(raws: seq<string>, isNumeric: string -> bool): string {
    if raws == [] then ""
    else NonNumericReasons(raws[..|raws| - 1], isNumeric) + NonNumericReason(raws[|raws| - 1], isNumeric)
  }

  /** The request a well-formed raw request becomes. */
  function Entry(raw: string, normalize: string -> string): Request
    requires !Malformed(raw)
  {
    Request(RequestIdOf(raw), normalize(FolderPieceOf(raw).value))
  }

  function Entries(raws: seq<string>, normalize: string -> string): seq<Request>
    requires forall i :: 0 <= i < |raws| ==> !Malformed(raws[i])
  {
    if raws == [] then []
    else Entries(raws[..|raws| - 1], normalize) + [Entry(raws[|raws| - 1], normalize)]
  }

  /** What `validRequests` resolves to or throws. */
  function ValidRequestsSpec(raws: seq<string>, isNumeric: string -> bool, normalize: string -> string): Result<seq<Request>> {
    if exists i :: 0 <= i < |raws| && Malformed(raws[i]) then Err(ThrowError("Invalid request"))
    else if NonNumericReasons(raws, isNumeric) != "" then Err(ThrowError(NonNumericReasons(raws, isNumeric)))
    else Ok(Entries(raws, normalize))
  }

  /** `validRequests`: splits every raw request on ",", throws "Invalid request" at
      the first one without an id or a folder, collects the non-numeric ids and
      throws them together after the last request. */
  method ValidRequests(raws: seq<string>, isNumeric: string -> bool, normalize: string -> string)
    returns (r: Result<seq<Request>>)
    ensures r == ValidRequestsSpec(raws, isNumeric, normalize)
  {
    var reason := "";
    var result: seq<Request> := [];
    for i := 0 to |raws|
      invariant forall j :: 0 <= j < i ==> !Malformed(raws[j])
      invariant reason == NonNumericReasons(raws[..i], isNumeric)
      invariant result == Entries(raws[..i], normalize)
    {
      var requestId := RequestIdOf(raws[i]);
      var folderPiece := FolderPieceOf(raws[i]);
      if requestId == "" || folderPiece.None? || folderPiece.value == "" {
        assert Malformed(raws[i]);
        return Err(ThrowError("Invalid request"));
      }
      var folderPath := folderPiece.value;
      if !isNumeric(requestId) {
        reason := reason + "invalid requestId: non-numeric: " + requestId;
      }
      folderPath := normalize(folderPath);
      // The trailing-slash test that follows computes `folderPath.substr(0, -1)`
      // and drops the result, so the path stays as normalised.
      EntriesStep(raws, i, isNumeric, normalize);
      result := result + [Request(requestId, folderPath)];
    }
    assert raws[..|raws|] == raws;
    if reason != "" {
      return Err(ThrowError(reason));
    }
    return Ok(result);
  }

  lemma EntriesStep(raws: seq<string>, i: nat, isNumeric: string -> bool, normalize: string -> string)
    requires i < |raws|
    requires forall j :: 0 <= j <= i ==> !Malformed(raws[j])
    ensures NonNumericReasons(raws[..i + 1], isNumeric) == NonNumericReasons(raws[..i], isNumeric) + NonNumericReason(raws[i], isNumeric)
    ensures Entries(raws[..i + 1], normalize) == Entries(raws[..i], normalize) + [Entry(raws[i], normalize)]
  {
    assert raws[..i + 1][..i] == raws[..i];
  }

  lemma {:induction false} EntriesAt(raws: seq<string>, normalize: string -> string, i: nat)
    requires forall j :: 0 <= j < |raws| ==> !Malformed(raws[j])
    requires i < |raws|
    ensures |Entries(raws, normalize)| == |raws|
    ensures Entries(raws, normalize)[i] == Entry(raws[i], normalize)
  {
    if i < |raws| - 1 {
      EntriesAt(raws[..|raws| - 1], normalize, i);
    } else if |raws| > 1 {
      EntriesAt(raws[..|raws| - 1], normalize, 0);
    }
  }

  /** On success there is one request per raw request, in the same order, made
      of the id and the normalised folder path. */
  lemma ValidRequestsInOrder(raws: seq<string>, isNumeric: string -> bool, normalize: string -> string)
    requires ValidRequestsSpec(raws, isNumeric, normalize).Ok?
    ensures var v := ValidRequestsSpec(raws, isNumeric, normalize).value;
      |v| == |raws| &&
      forall i :: 0 <= i < |raws| ==>
        FolderPieceOf(raws[i]).Some? &&
        v[i] == Request(RequestIdOf(raws[i]), normalize(FolderPieceOf(raws[i]).value))
  {
    var v := ValidRequestsSpec(raws, isNumeric, normalize).value;
    if raws == [] {
    } else {
      EntriesAt(raws, normalize, 0);
    }
    forall i | 0 <= i < |raws|
      ensures FolderPieceOf(raws[i]).Some?
      ensures v[i] == Request(RequestIdOf(raws[i]), normalize(FolderPieceOf(raws[i]).value))
    {
      EntriesAt(raws, normalize, i);
    }
  }

  /** No reason is collected exactly when every request id is numeric. */
  lemma {:induction false} NonNumericReasonsEmpty(raws: seq<string>, isNumeric: string -> bool)
    ensures NonNumericReasons(raws, isNumeric) == "" <==>
      forall i :: 0 <= i < |raws| ==> isNumeric(RequestIdOf(raws[i]))
  {
    if raws != [] {
      var init := raws[..|raws| - 1];
      NonNumericReasonsEmpty(init, isNumeric);
      assert forall i :: 0 <= i < |init| ==> init[i] == raws[i];
    }
  }

  /** Only the first two pieces of a raw request matter: whatever follows a second "," is ignored. */
  lemma OnlyFirstTwoPieces(id: string, folder: string, rest: string)
    requires ',' !in id && ',' !in folder
    ensures RequestIdOf(id + "," + folder) == id && FolderPieceOf(id + "," + folder) == Some(folder)
    ensures RequestIdOf(id + "," + folder + "," + rest) == id
    ensures FolderPieceOf(id + "," + folder + "," + rest) == Some(folder)
  {
    SplitAtFirst(id, folder, ',');
    SplitWithoutSeparator(folder, ',');
    SplitAtFirst(id, folder + "," + rest, ',');
    SplitAtFirst(folder, rest, ',');
    assert id + "," + folder + "," + rest == id + [','] + (folder + [','] + rest);
  }

  /** A raw request without a "," (a bare id, or "765786/foo/bar") is rejected. */
  lemma WithoutCommaIsMalformed(raw: string)
    requires ',' !in raw
    ensures Malformed(raw)
  {
    SplitWithoutSeparator(raw, ',');
  }

  // ---------------------------------------------------------------------------
  // validatedEnv

  const EnvVars: seq<string> := [
    "wis_credentials", "wis_test_url", "wis_prod_url", "wis_report_folder",
    "oneguard_credentials", "oneguard_test_url", "oneguard_prod_url", "oneguard_report_folder"]

  const CredentialVars: seq<string> := ["wis_username", "wis_password", "oneguard_username", "oneguard_password"]

  /** One "Invalid env variable" line per undefined name, in list order. */
  function MissingEnvReason(env: map<string, string>, names: seq<string>): string {
    if names == [] then ""
    else
      var name := names[|names| - 1];
      MissingEnvReason(env, names[..|names| - 1])
      + (if name in env then "" else "Invalid env variable: " + name + "\n")
  }

  lemma {:induction false} MissingEnvReasonEmpty(env: map<string, string>, names: seq<string>)
    ensures MissingEnvReason(env, names) == "" <==> forall i :: 0 <= i < |names| ==> names[i] in env
  {
    if names != [] {
      var init := names[..|names| - 1];
      MissingEnvReasonEmpty(env, init);
      assert forall i :: 0 <= i < |init| ==> init[i] == names[i];
    }
  }

  lemma EnvStep(env: map<string, string>, names: seq<string>, i: nat)
    requires i < |names|
    ensures MissingEnvReason(env, names[..i + 1]) ==
      MissingEnvReason(env, names[..i]) + (if names[i] in env then "" else "Invalid env variable: " + names[i] + "\n")
    ensures Copied(env, names[..i + 1]) ==
      if names[i] in env then Copied(env, names[..i])[names[i] := env[names[i]]] else Copied(env, names[..i])
  {
    assert names[..i + 1][..i] == names[..i];
    assert names[..i + 1] == names[..i] + [names[i]];
  }

  /** `const [user, password] = text.split(",")` followed by the emptiness test. */
  function Credentials(text: string): Option<(string, string)> {
    var pieces := Split(text, ',');
    if pieces[0] == "" || |pieces| < 2 || pieces[1] == "" then None else Some((pieces[0], pieces[1]))
  }

  /** "user,password" splits into its two halves; a third piece is ignored; a text without "," is malformed. */
  lemma CredentialsSplit(user: string, password: string, rest: string)
    requires ',' !in user && ',' !in password
    ensures user != "" && password != "" ==> Credentials(user + "," + password) == Some((user, password))
    ensures user != "" && password != "" ==> Credentials(user + "," + password + "," + rest) == Some((user, password))
    ensures Credentials(user) == None
  {
    OnlyFirstTwoPieces(user, password, rest);
    SplitWithoutSeparator(user, ',');
  }

  /** The keys of the variables object that `validatedEnv` resolves to. */
  function EnvKeys(): set<string> {
    set n | n in EnvVars + CredentialVars
  }

  function Copied(env: map<string, string>, names: seq<string>): map<string, string> {
    map n | n in names && n in env :: env[n]
  }

  /** What `validatedEnv` resolves to or throws. */
  function ValidatedEnvSpec(env: map<string, string>): (r: Result<map<string, string>>)
    ensures r.Ok? ==> r.value.Keys == EnvKeys()
    ensures r.Ok? ==> "wis_credentials" in env && "oneguard_credentials" in env
    ensures r.Ok? ==> SettingNamesIn(r.value)
  {
    var reason := MissingEnvReason(env, EnvVars);
    if reason != "" then Err(ThrowError(reason))
    else
      MissingEnvReasonEmpty(env, EnvVars);
      assert EnvVars[0] == "wis_credentials" && EnvVars[4] == "oneguard_credentials";
      match Credentials(env["wis_credentials"])
      case None => Err(ThrowError("Invalid formatting of wis credentials"))
      case Some(wis) =>
        match Credentials(env["oneguard_credentials"])
        case None => Err(ThrowError("Invalid formatting of oneguard credentials"))
        case Some(oneguard) =>
          var copied := Copied(env, EnvVars);
          assert copied.Keys == set n | n in EnvVars;
          var m := copied["wis_username" := wis.0]["wis_password" := wis.1]
                         ["oneguard_username" := oneguard.0]["oneguard_password" := oneguard.1];
          EnvNamesPresent(m);
          Ok(m)
  }

  /** `validatedEnv`: copies the eight variables, collecting one line per missing
      one and throwing after all are checked, then splits both credentials. */
  method ValidatedEnv(env: map<string, string>) returns (r: Result<map<string, string>>)
    ensures r == ValidatedEnvSpec(env)
  {
    var validEnvVars: map<string, string> := map[];
    var reason := "";
    for i := 0 to |EnvVars|
      invariant reason == MissingEnvReason(env, EnvVars[..i])
      invariant validEnvVars == Copied(env, EnvVars[..i])
    {
      var envVar := EnvVars[i];
      EnvStep(env, EnvVars, i);
      if envVar !in env {
        reason := reason + "Invalid env variable: " + envVar + "\n";
      } else {
        validEnvVars := validEnvVars[envVar := env[envVar]];
      }
    }
    assert EnvVars[..|EnvVars|] == EnvVars;
    if reason != "" {
      return Err(ThrowError(reason));
    }
    MissingEnvReasonEmpty(env, EnvVars);
    assert EnvVars[0] == "wis_credentials" && EnvVars[4] == "oneguard_credentials";
    var wisCredentials := Credentials(validEnvVars["wis_credentials"]);
    if wisCredentials.None? {
      return Err(ThrowError("Invalid formatting of wis credentials"));
    }
    validEnvVars := validEnvVars["wis_username" := wisCredentials.value.0];
    validEnvVars := validEnvVars["wis_password" := wisCredentials.value.1];
    var oneguardCredentials := Credentials(env["oneguard_credentials"]);
    if oneguardCredentials.None? {
      return Err(ThrowError("Invalid formatting of oneguard credentials"));
    }
    validEnvVars := validEnvVars["oneguard_username" := oneguardCredentials.value.0];
    validEnvVars := validEnvVars["oneguard_password" := oneguardCredentials.value.1];
    // The second pass over the four derived names finds all of them defined,
    // so it never adds a reason.
    return Ok(validEnvVars);
  }

  /** On success every variable is copied unchanged and the derived names hold
      the two halves of each credentials variable. */
  lemma ValidatedEnvContents(env: map<string, string>)
    requires ValidatedEnvSpec(env).Ok?
    ensures forall n :: n in EnvVars ==> n in env && ValidatedEnvSpec(env).value[n] == env[n]
    ensures var m := ValidatedEnvSpec(env).value;
      && Credentials(env["wis_credentials"]) == Some((m["wis_username"], m["wis_password"]))
      && Credentials(env["oneguard_credentials"]) == Some((m["oneguard_username"], m["oneguard_password"]))
  {
    MissingEnvReasonEmpty(env, EnvVars);
    assert EnvVars[0] == "wis_credentials" && EnvVars[4] == "oneguard_credentials";
    var wis := Credentials(env["wis_credentials"]).value;
    var oneguard := Credentials(env["oneguard_credentials"]).value;
    var copied := Copied(env, EnvVars);
    var m := ValidatedEnvSpec(env).value;
    assert m == copied["wis_username" := wis.0]["wis_password" := wis.1]
                      ["oneguard_username" := oneguard.0]["oneguard_password" := oneguard.1];
    DerivedNamesAreNew();
    UpdatesSet(copied, "wis_username", wis.0, "wis_password", wis.1,
               "oneguard_username", oneguard.0, "oneguard_password", oneguard.1);
    UpdatesKeepOthers(copied, EnvVars, "wis_username", wis.0, "wis_password", wis.1,
                      "oneguard_username", oneguard.0, "oneguard_password", oneguard.1);
  }

  /** Setting four distinct names stores each value under its name. */
  lemma UpdatesSet(m: map<string, string>, a: string, x: string, b: string, y: string,
                   c: string, z: string, d: string, w: string)
    requires a != b && a != c && a != d && b != c && b != d && c != d
    ensures var u := m[a := x][b := y][c := z][d := w];
      u[a] == x && u[b] == y && u[c] == z && u[d] == w
  {
  }

  /** Setting four names that are none of `names` leaves the entries under `names` as they were. */
  lemma UpdatesKeepOthers(m: map<string, string>, names: seq<string>, a: string, x: string, b: string, y: string,
                          c: string, z: string, d: string, w: string)
    requires forall n :: n in names ==> n != a && n != b && n != c && n != d
    ensures forall n :: n in names && n in m ==> m[a := x][b := y][c := z][d := w][n] == m[n]
  {
  }

  /** None of the four derived names is one of the eight variable names. */
  lemma DerivedNamesAreNew()
    ensures forall n :: n in EnvVars ==>
      n != "wis_username" && n != "wis_password" && n != "oneguard_username" && n != "oneguard_password"
    ensures "wis_username" != "wis_password" && "wis_username" != "oneguard_username"
      && "wis_username" != "oneguard_password" && "wis_password" != "oneguard_username"
      && "wis_password" != "oneguard_password" && "oneguard_username" != "oneguard_password"
  {
  }

  /** The environment is rejected with the list of missing names exactly when one is missing. */
  lemma ValidatedEnvMissing(env: map<string, string>)
    ensures (exists i :: 0 <= i < |EnvVars| && EnvVars[i] !in env) <==>
      ValidatedEnvSpec(env) == Err(ThrowError(MissingEnvReason(env, EnvVars))) && MissingEnvReason(env, EnvVars) != ""
  {
    MissingEnvReasonEmpty(env, EnvVars);
  }

  // ---------------------------------------------------------------------------
  // getFilteredObject and validatedOptions

  /** `getFilteredObject(obj, allowed)`: the entries of `obj` whose key is allowed. */
  function GetFilteredObject(obj: map<string, OptValue>, allowed: seq<string>): (r: map<string, OptValue>)
    ensures forall k :: k in r <==> k in obj && k in allowed
    ensures forall k :: k in r ==> r[k] == obj[k]
  {
    map k | k in obj && k in allowed :: obj[k]
  }

  /** `Object.fromEntries`: the entries in order, a later entry replacing an earlier one with the same key. */
  function FromEntries(entries: seq<(string, OptValue)>): map<string, OptValue> {
    if entries == [] then map[]
    else FromEntries(entries[..|entries| - 1])[entries[|entries| - 1].0 := entries[|entries| - 1].1]
  }

  /** `entries.filter(([key]) => allowed.includes(key))`. */
  function FilterEntries(entries: seq<(string, OptValue)>, allowed: seq<string>): seq<(string, OptValue)> {
    if entries == [] then []
    else
      var last := entries[|entries| - 1];
      FilterEntries(entries[..|entries| - 1], allowed) + (if last.0 in allowed then [last] else [])
  }

  /** Rebuilding an object from its entries filtered by key gives the object restricted to the
      allowed keys, whatever the order in which the entries are listed. */
  lemma {:induction false} GetFilteredObjectOfEntries(entries: seq<(string, OptValue)>, allowed: seq<string>)
    ensures FromEntries(FilterEntries(entries, allowed)) == GetFilteredObject(FromEntries(entries), allowed)
    decreases |entries|
  {
    if entries != [] {
      var init := entries[..|entries| - 1];
      var last := entries[|entries| - 1];
      GetFilteredObjectOfEntries(init, allowed);
      FilterUpdate(FromEntries(init), last.0, last.1, allowed);
      if last.0 in allowed {
        var kept := FilterEntries(init, allowed) + [last];
        assert kept[..|kept| - 1] == FilterEntries(init, allowed);
      } else {
        assert FilterEntries(entries, allowed) == FilterEntries(init, allowed);
      }
    }
  }

  /** Filtering after setting a key: the set key survives exactly when it is allowed. */
  lemma FilterUpdate(m: map<string, OptValue>, k: string, v: OptValue, allowed: seq<string>)
    ensures GetFilteredObject(m[k := v], allowed) ==
      if k in allowed then GetFilteredObject(m, allowed)[k := v] else GetFilteredObject(m, allowed)
  {
    var l := GetFilteredObject(m[k := v], allowed);
    var r := if k in allowed then GetFilteredObject(m, allowed)[k := v] else GetFilteredObject(m, allowed);
    assert l.Keys == r.Keys;
    assert forall n :: n in l ==> l[n] == r[n];
  }

  const AllowedKeys: seq<string> := ["server", "environment", "username", "password", "url", "reportFolder", "requests"]

  function Get(options: map<string, OptValue>, key: string): Option<OptValue> {
    if key in options then Some(options[key]) else None
  }

  /** `options._`, the positional arguments; anything other than a list counts as none. */
  function Positional(options: map<string, OptValue>): seq<string> {
    match Get(options, "_")
    case Some(List(items)) => items
    case _ => []
  }

  predicate ValidEnvironment(options: map<string, OptValue>) {
    Get(options, "environment") in {Some(Str("test")), Some(Str("production"))}
  }

  predicate ValidServer(options: map<string, OptValue>) {
    Get(options, "server") in {Some(Str("wis")), Some(Str("oneguard"))}
  }

  /** The text of a string option, "" when it is absent or not a string. */
  function StrValue(options: map<string, OptValue>, key: string): string {
    match Get(options, key)
    case Some(Str(s)) => s
    case _ => ""
  }

  /** The reasons `validatedOptions` collects, in the order it checks them. */
  function OptionsReason(options: map<string, OptValue>): string {
    (if ValidEnvironment(options) then "" else "Invalid environment: choose test or production.\n")
    + (if ValidServer(options) then "" else "Invalid server: choose wis or oneguard.\n")
    + (if Positional(options) != [] then "" else "Invalid requests: no request entered.\n")
  }

  /** No reason is collected exactly when the environment, the server and the request list are all valid. */
  lemma OptionsReasonEmpty(options: map<string, OptValue>)
    ensures OptionsReason(options) == "" <==>
      ValidEnvironment(options) && ValidServer(options) && Positional(options) != []
  {
  }

  /** The options object holding exactly the seven allowed keys. */
  function SevenKeys(server: string, environment: string, username: string, password: string,
                     url: string, reportFolder: string, requests: seq<Request>): map<string, OptValue>
  {
    map[
      "server" := Str(server),
      "environment" := Str(environment),
      "username" := Str(username),
      "password" := Str(password),
      "url" := Str(url),
      "reportFolder" := Str(reportFolder),
      "requests" := Requests(requests)]
  }

  /** The four keys `validatedOptions` assigns are none of the keys it checks afterwards. */
  lemma AssignedKeysDiffer()
    ensures
      && "h" != "username" && "h" != "password" && "h" != "reportFolder" && "h" != "url"
      && "_" != "username" && "_" != "password" && "_" != "reportFolder" && "_" != "url"
      && "server" != "username" && "server" != "password" && "server" != "reportFolder" && "server" != "url"
      && "environment" != "username" && "environment" != "password" && "environment" != "reportFolder" && "environment" != "url"
  {
    assert |"h"| == 1 && |"_"| == 1 && |"server"| == 6 && |"environment"| == 11;
    assert |"username"| == 8 && |"password"| == 8 && |"reportFolder"| == 12 && |"url"| == 3;
  }

  /** Assigning the credentials, folder and URL leaves the options that are
      validated afterwards, and so the reasons collected, untouched. */
  lemma AssignmentKeepsChecked(argv: map<string, OptValue>, username: string, password: string,
                               reportFolder: string, url: string)
    ensures var options := argv["username" := Str(username)]["password" := Str(password)]
                               ["reportFolder" := Str(reportFolder)]["url" := Str(url)];
      && ("h" in options <==> "h" in argv)
      && Get(options, "server") == Get(argv, "server")
      && Get(options, "_") == Get(argv, "_")
      && OptionsReason(options) == OptionsReason(argv)
  {
    var options := argv["username" := Str(username)]["password" := Str(password)]
                       ["reportFolder" := Str(reportFolder)]["url" := Str(url)];
    AssignedKeysDiffer();
    assert Get(options, "environment") == Get(argv, "environment");
  }

  /** Filtering the assigned options object to the allowed keys leaves exactly the seven of them. */
  lemma FilterAssigned(argv: map<string, OptValue>, server: string, environment: string, username: string,
                       password: string, url: string, reportFolder: string, requests: seq<Request>)
    requires Get(argv, "server") == Some(Str(server)) && Get(argv, "environment") == Some(Str(environment))
    ensures GetFilteredObject(argv["username" := Str(username)]["password" := Str(password)]
                                  ["reportFolder" := Str(reportFolder)]["url" := Str(url)]
                                  ["requests" := Requests(requests)], AllowedKeys)
            == SevenKeys(server, environment, username, password, url, reportFolder, requests)
  {
    var options := argv["username" := Str(username)]["password" := Str(password)]
                       ["reportFolder" := Str(reportFolder)]["url" := Str(url)]["requests" := Requests(requests)];
    var filtered := GetFilteredObject(options, AllowedKeys);
    var seven := SevenKeys(server, environment, username, password, url, reportFolder, requests);
    assert forall k :: k in AllowedKeys <==> k in seven;
    assert filtered.Keys == seven.Keys;
  }

  /** The username, password, report folder and URL of the chosen server; the
      test URL exactly when the environment is "test". */
  function ServerSettings(wis: bool, test: bool, envVars: map<string, string>): (string, string, string, string)
    requires SettingNamesIn(envVars)
  {
    if wis then
      (envVars["wis_username"], envVars["wis_password"], envVars["wis_report_folder"],
       envVars[if test then "wis_test_url" else "wis_prod_url"])
    else
      (envVars["oneguard_username"], envVars["oneguard_password"], envVars["oneguard_report_folder"],
       envVars[if test then "oneguard_test_url" else "oneguard_prod_url"])
  }

  /** The seven options `validatedOptions` resolves to. */
  function SelectedOptions(server: string, environment: string, envVars: map<string, string>, requests: seq<Request>): map<string, OptValue>
    requires SettingNamesIn(envVars)
  {
    var settings := ServerSettings(server == "wis", environment == "test", envVars);
    SevenKeys(server, environment, settings.0, settings.1, settings.3, settings.2, requests)
  }

  /** The variables the server settings read are all defined. */
  predicate SettingNamesIn(envVars: map<string, string>) {
    && "wis_username" in envVars && "wis_password" in envVars && "wis_report_folder" in envVars
    && "wis_test_url" in envVars && "wis_prod_url" in envVars
    && "oneguard_username" in envVars && "oneguard_password" in envVars && "oneguard_report_folder" in envVars
    && "oneguard_test_url" in envVars && "oneguard_prod_url" in envVars
  }

  /** The validated environment defines every name the server settings read. */
  lemma EnvNamesPresent(envVars: map<string, string>)
    requires envVars.Keys == EnvKeys()
    ensures SettingNamesIn(envVars)
  {
    assert (EnvVars + CredentialVars)[1] == "wis_test_url" && (EnvVars + CredentialVars)[2] == "wis_prod_url";
    assert (EnvVars + CredentialVars)[3] == "wis_report_folder";
    assert (EnvVars + CredentialVars)[5] == "oneguard_test_url" && (EnvVars + CredentialVars)[6] == "oneguard_prod_url";
    assert (EnvVars + CredentialVars)[7] == "oneguard_report_folder";
    assert (EnvVars + CredentialVars)[8] == "wis_username" && (EnvVars + CredentialVars)[9] == "wis_password";
    assert (EnvVars + CredentialVars)[10] == "oneguard_username" && (EnvVars + CredentialVars)[11] == "oneguard_password";
  }

  /** The four assigned values can be read back from the options object under their keys. */
  lemma SevenKeysGet(server: string, environment: string, username: string, password: string,
                     url: string, reportFolder: string, requests: seq<Request>)
    ensures var o := SevenKeys(server, environment, username, password, url, reportFolder, requests);
      && Get(o, "username") == Some(Str(username)) && Get(o, "password") == Some(Str(password))
      && Get(o, "reportFolder") == Some(Str(reportFolder)) && Get(o, "url") == Some(Str(url))
  {
    assert |"username"| == 8 && |"password"| == 8 && |"reportFolder"| == 12 && |"url"| == 3;
    assert |"server"| == 6 && |"environment"| == 11 && |"requests"| == 8;
    assert "username"[0] != "password"[0] && "username"[0] != "requests"[0] && "password"[0] != "requests"[0];
  }

  /** The run options take the credentials and report folder of the "wis" server when the server
      is "wis" and of the "oneguard" server otherwise, and the test URL exactly when the
      environment is "test". */
  lemma SelectedOptionsChoice(server: string, environment: string, envVars: map<string, string>, requests: seq<Request>)
    requires SettingNamesIn(envVars)
    ensures var o := SelectedOptions(server, environment, envVars, requests);
      var wis := server == "wis";
      && Get(o, "username") == Some(Str(envVars[if wis then "wis_username" else "oneguard_username"]))
      && Get(o, "password") == Some(Str(envVars[if wis then "wis_password" else "oneguard_password"]))
      && Get(o, "reportFolder") == Some(Str(envVars[if wis then "wis_report_folder" else "oneguard_report_folder"]))
    ensures Get(SelectedOptions(server, environment, envVars, requests), "url") ==
      Some(Str(envVars[if server == "wis" && environment == "test" then "wis_test_url"
                       else if server == "wis" then "wis_prod_url"
                       else if environment == "test" then "oneguard_test_url"
                       else "oneguard_prod_url"]))
  {
    var settings := ServerSettings(server == "wis", environment == "test", envVars);
    SevenKeysGet(server, environment, settings.0, settings.1, settings.3, settings.2, requests);
  }

  /** `validatedOptions`, after the env file is loaded: validates the environment,
      picks the credentials, folder and URL of the chosen server, then checks the
      help flag, collects the option reasons, validates the requests and keeps
      only the seven allowed keys. */
  method ValidatedOptions(argv: map<string, OptValue>, env: map<string, string>,
                          isNumeric: string -> bool, normalize: string -> string)
    returns (r: Result<map<string, OptValue>>)
    ensures ValidatedEnvSpec(env).Err? ==> r == Err(ValidatedEnvSpec(env).error)
    ensures ValidatedEnvSpec(env).Ok? && "h" in argv ==> r == Err(ThrowError(""))
    ensures ValidatedEnvSpec(env).Ok? && "h" !in argv && OptionsReason(argv) != "" ==>
      r == Err(ThrowError(OptionsReason(argv)))
    ensures ValidatedEnvSpec(env).Ok? && "h" !in argv && OptionsReason(argv) == "" ==>
      var requests := ValidRequestsSpec(Positional(argv), isNumeric, normalize);
      && (requests.Err? ==> r == Err(requests.error))
      && (requests.Ok? ==> r == Ok(SelectedOptions(StrValue(argv, "server"), StrValue(argv, "environment"),
                                                   ValidatedEnvSpec(env).value, requests.value)))
  {
    var envResult := ValidatedEnv(env);
    if envResult.Err? {
      return Err(envResult.error);
    }
    r := CheckedOptions(argv, envResult.value, isNumeric, normalize);
  }

  /** The part of `validatedOptions` after the environment is validated. */
  method CheckedOptions(argv: map<string, OptValue>, envVars: map<string, string>,
                        isNumeric: string -> bool, normalize: string -> string)
    returns (r: Result<map<string, OptValue>>)
    requires SettingNamesIn(envVars)
    ensures "h" in argv ==> r == Err(ThrowError(""))
    ensures "h" !in argv && OptionsReason(argv) != "" ==> r == Err(ThrowError(OptionsReason(argv)))
    ensures "h" !in argv && OptionsReason(argv) == "" ==>
      var requests := ValidRequestsSpec(Positional(argv), isNumeric, normalize);
      && (requests.Err? ==> r == Err(requests.error))
      && (requests.Ok? ==> r == Ok(SelectedOptions(StrValue(argv, "server"), StrValue(argv, "environment"),
                                                   envVars, requests.value)))
  {
    var options := argv;
    var isTest := Get(options, "environment") == Some(Str("test"));
    var isWis := Get(options, "server") == Some(Str("wis"));
    var settings := ServerSettings(isWis, isTest, envVars);
    var username, password, reportFolder, url := settings.0, settings.1, settings.2, settings.3;
    options := options["username" := Str(username)]["password" := Str(password)];
    options := options["reportFolder" := Str(reportFolder)]["url" := Str(url)];
    AssignmentKeepsChecked(argv, username, password, reportFolder, url);

    if "h" in options {
      return Err(ThrowError(""));
    }
    var reason := CollectReasons(options);
    if reason != "" {
      return Err(ThrowError(reason));
    }

    var requests := ValidRequests(Positional(options), isNumeric, normalize);
    if requests.Err? {
      return Err(requests.error);
    }
    options := options["requests" := Requests(requests.value)];
    r := Ok(GetFilteredObject(options, AllowedKeys));
    var server, environment := StrValue(argv, "server"), StrValue(argv, "environment");
    FilterAssigned(argv, server, environment, username, password, url, reportFolder, requests.value);
    assert isWis <==> server == "wis";
    assert isTest <==> environment == "test";
  }

  /** The three checks of `validatedOptions`, each appending its line to the reason. */
  method CollectReasons(options: map<string, OptValue>) returns (reason: string)
    ensures reason == OptionsReason(options)
  {
    reason := "";
    ghost var environmentReason := if ValidEnvironment(options) then "" else "Invalid environment: choose test or production.\n";
    ghost var serverReason := if ValidServer(options) then "" else "Invalid server: choose wis or oneguard.\n";
    ghost var requestsReason := if Positional(options) != [] then "" else "Invalid requests: no request entered.\n";
    if !ValidEnvironment(options) {
      reason := reason + "Invalid environment: choose test or production.\n";
    }
    assert reason == environmentReason;
    if !ValidServer(options) {
      reason := reason + "Invalid server: choose wis or oneguard.\n";
    }
    assert reason == environmentReason + serverReason;
    if Positional(options) == [] {
      reason := reason + "Invalid requests: no request entered.\n";
    }
    assert reason == environmentReason + serverReason + requestsReason;
  }
}
