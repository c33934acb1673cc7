/** The menu-bar client's side of the worker protocol: locating the Python
    interpreter and the repository, launching `python -m stt_backend`, taking
    the last stdout line as the JSON payload, and decoding the four requests'
    replies. The host (environment, working directory, existing paths), the
    process launch and the JSON parser are parameters. */
module BackendClient {
  import opened Wrappers
  import opened Text
  import opened Json
  import opened SmartWorkflowMode

  // ---------------------------------------------------------------------
  // Results and errors
  // ---------------------------------------------------------------------

  datatype TranscriptionResult = TranscriptionResult(
    text: string,
    latencyMs: int,
    modelDownloaded: bool,
    refined: bool,
    workflowMode: Mode)

  datatype BackendError =
    | ExecutableNotFound(path: string)
    | CommandFailed(reason: string)
    | InvalidResponse(raw: string)

  const NotFoundPrefix: string := "Python executable not found: "
  const InvalidPrefix: string := "Invalid backend response: "

  /** `errorDescription`: each kind's message, carrying its detail verbatim. */
  function ErrorDescription(e: BackendError): (d: string)
    ensures e.ExecutableNotFound? ==> |d| >= |NotFoundPrefix| && d[..|NotFoundPrefix|] == NotFoundPrefix && d[|NotFoundPrefix|..] == e.path
    ensures e.InvalidResponse? ==> |d| >= |InvalidPrefix| && d[..|InvalidPrefix|] == InvalidPrefix && d[|InvalidPrefix|..] == e.raw
    ensures e.CommandFailed? ==> d == e.reason
  {
    match e
    case ExecutableNotFound(path) => NotFoundPrefix + path
    case CommandFailed(reason) => reason
    case InvalidResponse(raw) => InvalidPrefix + raw
  }

  /** Within one kind of error, the message tells the errors apart. */
  lemma ErrorDescriptionInjective(e1: BackendError, e2: BackendError)
    requires (e1.ExecutableNotFound? && e2.ExecutableNotFound?)
          || (e1.CommandFailed? && e2.CommandFailed?)
          || (e1.InvalidResponse? && e2.InvalidResponse?)
    ensures ErrorDescription(e1) == ErrorDescription(e2) <==> e1 == e2
  {
  }

  /** What a request can throw: one of the client's own errors, or an error
      raised by Foundation (launching the process, parsing the JSON). */
  datatype ClientError = Backend(error: BackendError) | Foundation(description: string)

  /** `error.localizedDescription` as the menu shows it. */
  function LocalizedDescription(e: ClientError): string {
    match e
    case Backend(b) => ErrorDescription(b)
    case Foundation(d) => d
  }

  // ---------------------------------------------------------------------
  // Paths and the host
  // ---------------------------------------------------------------------

  /** `URL.appendingPathComponent(_:).path`: one separator between the base
      and the new component. */
  function AppendPath(base: string, component: string): string {
    if base != [] && base[|base| - 1] == '/' then base + component else base + "/" + component
  }

  /** The path of a directory URL given by its components from the root. */
  function PathOf(dir: seq<string>): string {
    if dir == [] then "/" else AppendPath(PathOf(dir[..|dir| - 1]), dir[|dir| - 1])
  }

  /** `deleteLastPathComponent()`; the root stays the root. */
  function Parent(dir: seq<string>): seq<string> {
    if dir == [] then [] else dir[..|dir| - 1]
  }

  /** What the client reads of its surroundings: the process environment, the
      working directory and the set of paths that exist on disk. */
  datatype Host = Host(environment: map<string, string>, currentDirectory: seq<string>, existing: set<string>)

  const PythonVariable: string := "WHISPER_CLIP_PYTHON"
  const RepoRootVariable: string := "WHISPER_CLIP_REPO_ROOT"
  const PythonPathVariable: string := "PYTHONPATH"
  const VenvPython: string := ".venv/bin/python3"
  const SystemPython: string := "/usr/bin/python3"
  const BackendDirectory: string := "backend"

  /** How many directories the search for the repository looks at. */
  const SearchDepth: nat := 6

  /** An environment variable that is set to a non-empty value. */
  function Override(environment: map<string, string>, name: string): (r: Option<string>)
    ensures r.Some? <==> name in environment && environment[name] != ""
    ensures r.Some? ==> r.value == environment[name]
  {
    if name in environment && environment[name] != "" then Some(environment[name]) else None
  }

  /** `dir` holds a `backend` entry. */
  predicate HasBackend(dir: seq<string>, existing: set<string>) {
    PathOf(dir + [BackendDirectory]) in existing
  }

  /** The directory `k` levels above `dir` (never above the root). */
  function Ancestor(dir: seq<string>, k: nat): seq<string> {
    dir[..if k <= |dir| then |dir| - k else 0]
  }

  /** The loop of `repoRootURL`: `dir` and up to `n - 1` of its ancestors,
      nearest first, and the first of them holding `backend`. */
  function SearchUp(dir: seq<string>, existing: set<string>, n: nat): Option<seq<string>> {
    if n == 0 then None
    else if HasBackend(dir, existing) then Some(dir)
    else SearchUp(Parent(dir), existing, n - 1)
  }

  /** `repoRootURL().path`. */
  function RepoRoot(h: Host): string {
    match Override(h.environment, RepoRootVariable)
    case Some(root) => root
    case None =>
      match SearchUp(h.currentDirectory, h.existing, SearchDepth)
      case Some(dir) => PathOf(dir)
      case None => PathOf(h.currentDirectory)
  }

  lemma AncestorOfParent(dir: seq<string>, k: nat)
    ensures Ancestor(Parent(dir), k) == Ancestor(dir, k + 1)
  {
  }

  /** The search misses exactly when none of the `n` directories it looks at
      holds `backend`. */
  lemma {:induction false} SearchUpMisses(dir: seq<string>, existing: set<string>, n: nat)
    ensures SearchUp(dir, existing, n).None? <==> forall k :: 0 <= k < n ==> !HasBackend(Ancestor(dir, k), existing)
    decreases n
  {
    if n > 0 {
      assert Ancestor(dir, 0) == dir;
      SearchUpMisses(Parent(dir), existing, n - 1);
      forall k | 0 <= k < n - 1 ensures Ancestor(Parent(dir), k) == Ancestor(dir, k + 1) {
        AncestorOfParent(dir, k);
      }
      if forall k :: 0 <= k < n ==> !HasBackend(Ancestor(dir, k), existing) {
        forall k | 0 <= k < n - 1 ensures !HasBackend(Ancestor(Parent(dir), k), existing) {
          assert !HasBackend(Ancestor(dir, k + 1), existing);
        }
      }
      if SearchUp(dir, existing, n).None? {
        forall k | 0 <= k < n ensures !HasBackend(Ancestor(dir, k), existing) {
          if k > 0 { assert Ancestor(dir, k) == Ancestor(Parent(dir), k - 1); }
        }
      }
    }
  }

  /** A hit is the nearest of the directories looked at that holds `backend`. */
  lemma {:induction false} SearchUpHits(dir: seq<string>, existing: set<string>, n: nat) returns (k: nat)
    requires SearchUp(dir, existing, n).Some?
    ensures k < n && SearchUp(dir, existing, n).value == Ancestor(dir, k)
    ensures HasBackend(Ancestor(dir, k), existing)
    ensures forall j :: 0 <= j < k ==> !HasBackend(Ancestor(dir, j), existing)
    decreases n
  {
    assert Ancestor(dir, 0) == dir;
    if HasBackend(dir, existing) {
      k := 0;
    } else {
      assert SearchUp(dir, existing, n) == SearchUp(Parent(dir), existing, n - 1);
      var k' := SearchUpHits(Parent(dir), existing, n - 1);
      k := k' + 1;
      AncestorOfParent(dir, k');
      forall j | 0 <= j < k ensures !HasBackend(Ancestor(dir, j), existing) {
        if j > 0 {
          AncestorOfParent(dir, j - 1);
          assert !HasBackend(Ancestor(Parent(dir), j - 1), existing);
        }
      }
    }
  }

  /** `repoRootURL`: the override, else the walk up from the working directory,
      else the working directory itself. */
  method RepoRootURL(h: Host) returns (root: string)
    ensures root == RepoRoot(h)
  {
    var rootOverride := Override(h.environment, RepoRootVariable);
    if rootOverride.Some? {
      return rootOverride.value;
    }
    var current := h.currentDirectory;
    for i := 0 to SearchDepth
      invariant SearchUp(h.currentDirectory, h.existing, SearchDepth) == SearchUp(current, h.existing, SearchDepth - i)
    {
      var candidate := PathOf(current + [BackendDirectory]);
      if candidate in h.existing {
        return PathOf(current);
      }
      current := Parent(current);
    }
    return PathOf(h.currentDirectory);
  }

  /** The repository root is the non-empty override when one is set.
      Otherwise `k` counts the directories the walk passed over: when it is
      below the search depth the root is the `k`-th ancestor of the working
      directory, the nearest holding `backend`; when it reaches the depth no
      visited directory holds `backend` and the root is the working
      directory itself. */
  lemma RepoRootChoice(h: Host) returns (k: nat)
    ensures RepoRootVariable in h.environment && h.environment[RepoRootVariable] != "" ==>
      RepoRoot(h) == h.environment[RepoRootVariable]
    ensures Override(h.environment, RepoRootVariable).None? ==>
      && k <= SearchDepth
      && (forall j :: 0 <= j < k ==> !HasBackend(Ancestor(h.currentDirectory, j), h.existing))
      && (k < SearchDepth ==> HasBackend(Ancestor(h.currentDirectory, k), h.existing)
                              && RepoRoot(h) == PathOf(Ancestor(h.currentDirectory, k)))
      && (k == SearchDepth ==> RepoRoot(h) == PathOf(h.currentDirectory))
  {
    k := SearchDepth;
    if Override(h.environment, RepoRootVariable).None? {
      if SearchUp(h.currentDirectory, h.existing, SearchDepth).Some? {
        k := SearchUpHits(h.currentDirectory, h.existing, SearchDepth);
      } else {
        SearchUpMisses(h.currentDirectory, h.existing, SearchDepth);
      }
    }
  }

  /** `resolvePythonExecutable` for the repository root `repo`. */
  function PythonExecutable(h: Host, repo: string): string {
    match Override(h.environment, PythonVariable)
    case Some(python) => python
    case None =>
      var localVenv := AppendPath(repo, VenvPython);
      if localVenv in h.existing then localVenv else SystemPython
  }

  /** `backendPythonPath` for the repository root `repo`. */
  function BackendPythonPath(repo: string): string {
    AppendPath(repo, BackendDirectory)
  }

  /** The interpreter is the override when one is set, otherwise the
      repository's virtual environment when it exists, otherwise the system
      interpreter; without an override a missing virtual environment is never
      chosen. */
  lemma PythonExecutableChoice(h: Host, repo: string)
    ensures var p := PythonExecutable(h, repo);
      && (PythonVariable in h.environment && h.environment[PythonVariable] != "" ==> p == h.environment[PythonVariable])
      && (Override(h.environment, PythonVariable).None? ==>
            (p == AppendPath(repo, VenvPython) <==> AppendPath(repo, VenvPython) in h.existing)
            && (p != AppendPath(repo, VenvPython) ==> p == SystemPython))
  {
  }

  /** When the walk finds the repository, `PYTHONPATH` names the very
      `backend` directory that made it stop. */
  lemma FoundRootHasBackend(h: Host)
    requires Override(h.environment, RepoRootVariable).None?
    requires SearchUp(h.currentDirectory, h.existing, SearchDepth).Some?
    ensures BackendPythonPath(RepoRoot(h)) in h.existing
  {
    var k := SearchUpHits(h.currentDirectory, h.existing, SearchDepth);
    var dir := Ancestor(h.currentDirectory, k);
    assert (dir + [BackendDirectory])[..|dir|] == dir;
  }

  // ---------------------------------------------------------------------
  // Running the worker
  // ---------------------------------------------------------------------

  /** The process the client starts. */
  datatype Invocation = Invocation(executable: string, arguments: seq<string>, environment: map<string, string>)

  /** What a finished process left behind: its standard output, the standard
      error chunks streamed while it ran and the rest read after it exited,
      and its exit status. */
  datatype Run = Run(stdout: string, stderrChunks: seq<string>, stderrTail: string, terminationStatus: int)

  /** `process.run()` and `waitUntilExit()`: the finished run, or the error
      `run()` threw. */
  type Launch = Invocation -> Result<Run, string>

  /** `JSONSerialization.jsonObject(with:) as? [String: Any]`: a thrown parse
      error, a value that is not an object, or the object. */
  datatype ParseOutcome = Malformed(description: string) | NonObject | Parsed(payload: Object)

  type Parser = string -> ParseOutcome

  /** All the standard error the client collected. */
  function Stderr(run: Run): string {
    Concat(run.stderrChunks) + run.stderrTail
  }

  /** The fixed start of the worker's command line. */
  const ModuleArguments: seq<string> := ["-m", "stt_backend"]

  /** The process `runBackend` starts for `args` from the repository `repo`. */
  function WorkerInvocation(h: Host, repo: string, args: seq<string>): (inv: Invocation)
    ensures |inv.arguments| == |ModuleArguments| + |args|
    ensures inv.arguments[..|ModuleArguments|] == ModuleArguments && inv.arguments[|ModuleArguments|..] == args
    ensures PythonPathVariable in inv.environment && inv.environment[PythonPathVariable] == BackendPythonPath(repo)
    ensures forall name :: name != PythonPathVariable ==>
      (name in inv.environment <==> name in h.environment)
      && (name in h.environment ==> inv.environment[name] == h.environment[name])
  {
    Invocation(PythonExecutable(h, repo), ModuleArguments + args, h.environment[PythonPathVariable := BackendPythonPath(repo)])
  }

  /** The second half of `runBackend`: the last non-empty stdout line is the
      payload; a payload that did not come from a clean exit is accepted only
      when it reports an error itself. */
  function InterpretResponse(stdout: string, stderr: string, terminationStatus: int, parse: Parser): Result<Object, ClientError> {
    var raw := stdout + "\n" + stderr;
    match LastLine(stdout)
    case None => Failure(Backend(InvalidResponse(raw)))
    case Some(jsonLine) =>
      match parse(jsonLine)
      case Malformed(d) => Failure(Foundation(d))
      case NonObject => Failure(Backend(InvalidResponse(raw)))
      case Parsed(payload) =>
        if terminationStatus != 0 && Status(payload) != Some("error") then
          Failure(Backend(CommandFailed(if stderr == "" then stdout else stderr)))
        else Success(payload)
  }

  /** `runBackend(args:)` as a function of the host, the launch and the parser. */
  function RunBackendSpec(args: seq<string>, h: Host, launch: Launch, parse: Parser): Result<Object, ClientError> {
    var repo := RepoRoot(h);
    var pythonPath := PythonExecutable(h, repo);
    if pythonPath !in h.existing then Failure(Backend(ExecutableNotFound(pythonPath)))
    else
      match launch(WorkerInvocation(h, repo, args))
      case Failure(d) => Failure(Foundation(d))
      case Success(run) => InterpretResponse(run.stdout, Stderr(run), run.terminationStatus, parse)
  }

  /** `runBackend(args:)`: check the interpreter, set up the environment,
      launch, collect standard error as it streams, then read the payload. */
  method RunBackend(args: seq<string>, h: Host, launch: Launch, parse: Parser) returns (r: Result<Object, ClientError>)
    ensures r == RunBackendSpec(args, h, launch, parse)
  {
    var repo := RepoRootURL(h);
    var pythonPath := PythonExecutable(h, repo);
    if pythonPath !in h.existing {
      return Failure(Backend(ExecutableNotFound(pythonPath)));
    }
    var arguments := ModuleArguments + args;
    var env := h.environment;
    env := env[PythonPathVariable := BackendPythonPath(repo)];
    var outcome := launch(Invocation(pythonPath, arguments, env));
    if outcome.Failure? {
      return Failure(Foundation(outcome.error));
    }
    var run := outcome.value;
    var streamedStderr := "";
    for i := 0 to |run.stderrChunks|
      invariant streamedStderr == Concat(run.stderrChunks[..i])
    {
      var chunk := run.stderrChunks[i];
      assert run.stderrChunks[..i + 1][..i] == run.stderrChunks[..i];
      if chunk == "" {
        continue;
      }
      streamedStderr := streamedStderr + chunk;
    }
    assert run.stderrChunks[..|run.stderrChunks|] == run.stderrChunks;
    streamedStderr := streamedStderr + run.stderrTail;
    r := InterpretResponse(run.stdout, streamedStderr, run.terminationStatus, parse);
  }

  /** Output without any line is an invalid response that quotes both streams. */
  lemma NoLineIsInvalid(stdout: string, stderr: string, terminationStatus: int, parse: Parser)
    requires AllNewlines(stdout)
    ensures InterpretResponse(stdout, stderr, terminationStatus, parse)
      == Failure(Backend(InvalidResponse(stdout + "\n" + stderr)))
  {
  }

  /** Only the last line counts: whatever the lines before it hold, a response
      is accepted exactly when that line parses to an object and the process
      exited cleanly or the object reports an error, and it is that object. */
  lemma ResponseIsLastLine(before: string, line: string, after: string, stderr: string, terminationStatus: int, parse: Parser)
    requires line != [] && HasNoNewline(line) && AllNewlines(after)
    requires before == [] || IsNewline(before[|before| - 1])
    ensures var r := InterpretResponse(before + line + after, stderr, terminationStatus, parse);
      && (r.Success? <==> parse(line).Parsed? && (terminationStatus == 0 || Status(parse(line).payload) == Some("error")))
      && (r.Success? ==> r.value == parse(line).payload)
      && (parse(line).NonObject? ==> r == Failure(Backend(InvalidResponse(before + line + after + "\n" + stderr))))
      && (parse(line).Malformed? ==> r == Failure(Foundation(parse(line).description)))
  {
    LastLineOfDecomposition(before, line, after);
  }

  /** A failed command is reported with the standard error it printed, or its
      standard output when it printed none, and only for a non-zero exit. */
  lemma CommandFailedReason(stdout: string, stderr: string, terminationStatus: int, parse: Parser, reason: string)
    requires InterpretResponse(stdout, stderr, terminationStatus, parse) == Failure(Backend(CommandFailed(reason)))
    ensures terminationStatus != 0
    ensures reason == if stderr == "" then stdout else stderr
  {
  }

  /** A missing interpreter is reported, with the path that was looked for,
      before anything is launched. */
  lemma MissingInterpreter(args: seq<string>, h: Host, launch: Launch, parse: Parser)
    requires PythonExecutable(h, RepoRoot(h)) !in h.existing
    ensures RunBackendSpec(args, h, launch, parse) == Failure(Backend(ExecutableNotFound(PythonExecutable(h, RepoRoot(h)))))
  {
  }

  /** An interpreter that does not exist is never launched: two launches that
      agree on every existing executable give the same result. */
  lemma LaunchesOnlyExisting(args: seq<string>, h: Host, l1: Launch, l2: Launch, parse: Parser)
    requires forall inv: Invocation :: inv.executable in h.existing ==> l1(inv) == l2(inv)
    ensures RunBackendSpec(args, h, l1, parse) == RunBackendSpec(args, h, l2, parse)
  {
  }

  // ---------------------------------------------------------------------
  // The four requests
  // ---------------------------------------------------------------------

  /** `stateDir`: the state directory under Application Support. */
  function StateDirectory(applicationSupport: string): string {
    AppendPath(applicationSupport, "WhisperClipMac/state")
  }

  const RecordStartFallback: string := "record start failed"
  const RecordStopFallback: string := "record stop failed"
  const ModelStatusFallback: string := "model status failed"
  const ModelEnsureFallback: string := "model ensure failed"

  function RecordStartArgs(stateDir: string, model: string, language: string): seq<string> {
    ["record", "--start", "--state-dir", stateDir, "--model", model, "--language", language]
  }

  /** The refinement flag as the worker's `--smart-refine-enabled` takes it. */
  function FlagText(b: bool): string {
    if b then "true" else "false"
  }

  function RecordStopArgs(stateDir: string, model: string, language: string, smartRefineEnabled: bool, mode: Mode): seq<string> {
    ["record", "--stop", "--state-dir", stateDir, "--model", model, "--language", language,
     "--smart-mode", RawValue(mode), "--smart-refine-enabled", FlagText(smartRefineEnabled)]
  }

  function ModelStatusArgs(model: string): seq<string> {
    ["model", "--status", "--model", model]
  }

  function ModelEnsureArgs(model: string): seq<string> {
    ["model", "--ensure", "--model", model]
  }

  /** The status check every request makes: a payload whose `status` is not
      `ok` becomes a failed command, with the payload's `error` text or the
      request's fallback message; errors from the run pass through untouched. */
  function Checked(response: Result<Object, ClientError>, fallback: string): (r: Result<Object, ClientError>)
    ensures r.Success? <==> response.Success? && Status(response.value) == Some("ok")
    ensures r.Success? ==> r.value == response.value
    ensures response.Failure? ==> r == response
    ensures response.Success? && r.Failure? ==>
      r.error == Backend(CommandFailed(StringField(response.value, "error").GetOr(fallback)))
  {
    match response
    case Failure(e) => Failure(e)
    case Success(payload) =>
      if Status(payload) != Some("ok") then
        Failure(Backend(CommandFailed(StringField(payload, "error").GetOr(fallback))))
      else Success(payload)
  }

  /** The mode a payload reports: its `workflow_mode` raw value, or `normal`
      when it is missing or not one of the modes. */
  function ReportedMode(payload: Object): (m: Mode)
    ensures forall n :: StringField(payload, "workflow_mode") == Some(RawValue(n)) ==> m == n
    ensures m != Normal ==> StringField(payload, "workflow_mode") == Some(RawValue(m))
  {
    var raw := StringField(payload, "workflow_mode").GetOr(RawValue(Normal));
    RawValueRoundTripAll();
    FromRawValue(raw).GetOr(Normal)
  }

  lemma RawValueRoundTripAll()
    ensures forall m :: FromRawValue(RawValue(m)) == Some(m)
  {
    forall m { RawValueRoundTrip(m, m); }
  }

  /** The fields of a stop reply, each with its default when it is missing or
      of another type. */
  function DecodeTranscription(payload: Object): TranscriptionResult {
    TranscriptionResult(
      StringField(payload, "text").GetOr(""),
      IntField(payload, "latency_ms").GetOr(0),
      BoolField(payload, "model_downloaded").GetOr(false),
      BoolField(payload, "refined").GetOr(false),
      ReportedMode(payload))
  }

  /** `payload[key] as? Bool ?? false` after the status check. */
  function FlagReply(response: Result<Object, ClientError>, fallback: string, key: string): (r: Result<bool, ClientError>)
    ensures r.Success? <==> Checked(response, fallback).Success?
    ensures r.Success? ==> (r.value <==> BoolField(response.value, key) == Some(true))
    ensures r.Failure? ==> r.error == Checked(response, fallback).error
  {
    match Checked(response, fallback)
    case Failure(e) => Failure(e)
    case Success(payload) => Success(BoolField(payload, key).GetOr(false))
  }

  /** The stop request's reply after the status check. */
  function TranscriptionReply(response: Result<Object, ClientError>): Result<TranscriptionResult, ClientError> {
    match Checked(response, RecordStopFallback)
    case Failure(e) => Failure(e)
    case Success(payload) => Success(DecodeTranscription(payload))
  }

  /** A reply that carries none of the optional fields decodes to the
      defaults: empty text, no latency, nothing downloaded, not refined, and
      the normal mode. */
  lemma DecodeDefaults(payload: Object)
    requires forall key :: key in payload ==> key == "status"
    ensures DecodeTranscription(payload) == TranscriptionResult("", 0, false, false, Normal)
  {
    assert "text" !in payload && "latency_ms" !in payload && "model_downloaded" !in payload;
    assert "refined" !in payload && "workflow_mode" !in payload;
  }

  /** A reply that carries every field with its expected type decodes to
      exactly those values. */
  lemma DecodeReadsFields(payload: Object, text: string, latencyMs: int, modelDownloaded: bool, refined: bool, mode: Mode)
    requires "text" in payload && payload["text"] == Str(text)
    requires "latency_ms" in payload && payload["latency_ms"] == Int(latencyMs)
    requires "model_downloaded" in payload && payload["model_downloaded"] == Bool(modelDownloaded)
    requires "refined" in payload && payload["refined"] == Bool(refined)
    requires "workflow_mode" in payload && payload["workflow_mode"] == Str(RawValue(mode))
    ensures DecodeTranscription(payload) == TranscriptionResult(text, latencyMs, modelDownloaded, refined, mode)
  {
  }

  /** `recordStart(model:language:)`. */
  method RecordStart(model: string, language: string, stateDir: string, h: Host, launch: Launch, parse: Parser)
    returns (r: Result<Object, ClientError>)
    ensures r == Checked(RunBackendSpec(RecordStartArgs(stateDir, model, language), h, launch, parse), RecordStartFallback)
  {
    var payload := RunBackend(RecordStartArgs(stateDir, model, language), h, launch, parse);
    if payload.Failure? {
      return payload;
    }
    if Status(payload.value) != Some("ok") {
      return Failure(Backend(CommandFailed(StringField(payload.value, "error").GetOr(RecordStartFallback))));
    }
    return payload;
  }

  /** `recordStop(model:language:smartRefineEnabled:smartWorkflowMode:)`. */
  method RecordStop(model: string, language: string, smartRefineEnabled: bool, mode: Mode, stateDir: string, h: Host, launch: Launch, parse: Parser)
    returns (r: Result<TranscriptionResult, ClientError>)
    ensures r == TranscriptionReply(RunBackendSpec(RecordStopArgs(stateDir, model, language, smartRefineEnabled, mode), h, launch, parse))
  {
    var response := RunBackend(RecordStopArgs(stateDir, model, language, smartRefineEnabled, mode), h, launch, parse);
    if response.Failure? {
      return Failure(response.error);
    }
    var payload := response.value;
    if Status(payload) != Some("ok") {
      return Failure(Backend(CommandFailed(StringField(payload, "error").GetOr(RecordStopFallback))));
    }
    var text := StringField(payload, "text").GetOr("");
    var latency := IntField(payload, "latency_ms").GetOr(0);
    var modelDownloaded := BoolField(payload, "model_downloaded").GetOr(false);
    var refined := BoolField(payload, "refined").GetOr(false);
    var workflowModeRawValue := StringField(payload, "workflow_mode").GetOr(RawValue(Normal));
    var workflowMode := FromRawValue(workflowModeRawValue).GetOr(Normal);
    return Success(TranscriptionResult(text, latency, modelDownloaded, refined, workflowMode));
  }

  /** `isModelAvailableLocally(model:)`. */
  method IsModelAvailableLocally(model: string, h: Host, launch: Launch, parse: Parser)
    returns (r: Result<bool, ClientError>)
    ensures r == FlagReply(RunBackendSpec(ModelStatusArgs(model), h, launch, parse), ModelStatusFallback, "is_available")
  {
    var response := RunBackend(ModelStatusArgs(model), h, launch, parse);
    if response.Failure? {
      return Failure(response.error);
    }
    if Status(response.value) != Some("ok") {
      return Failure(Backend(CommandFailed(StringField(response.value, "error").GetOr(ModelStatusFallback))));
    }
    return Success(BoolField(response.value, "is_available").GetOr(false));
  }

  /** `ensureModelAvailable(model:)`. */
  method EnsureModelAvailable(model: string, h: Host, launch: Launch, parse: Parser)
    returns (r: Result<bool, ClientError>)
    ensures r == FlagReply(RunBackendSpec(ModelEnsureArgs(model), h, launch, parse), ModelEnsureFallback, "downloaded")
  {
    var response := RunBackend(ModelEnsureArgs(model), h, launch, parse);
    if response.Failure? {
      return Failure(response.error);
    }
    if Status(response.value) != Some("ok") {
      return Failure(Backend(CommandFailed(StringField(response.value, "error").GetOr(ModelEnsureFallback))));
    }
    return Success(BoolField(response.value, "downloaded").GetOr(false));
  }
}
