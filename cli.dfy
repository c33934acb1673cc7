/** The worker's command line: argument normalisation, the `record`, `run`,
    `model` and `_capture` commands, the composition of the stop payload,
    and the exit code. Everything the worker does not decide itself (the
    capture process, the speech model, the language model, the clock) is a
    parameter bundled in `Env`. */
module Cli {
  import opened Wrappers
  import opened Text
  import opened Json
  import opened PromptTemplates
  import opened UserGlossary
  import opened SmartWorkflow
  import opened Recorder

  // ---------------------------------------------------------------------
  // Argument normalisation
  // ---------------------------------------------------------------------

  /** The language that asks the speech model to detect it. */
  const Auto: string := "auto"

  /** "auto" is stripped and lower case. */
  lemma AutoIsNormal()
    ensures IsStripped(Auto) && Lower(Auto) == Auto
  {
    LowerOfLower(Auto);
  }

  /** `_normalize_language`: blank, "auto" and "none", in any case and with
      any surrounding whitespace, mean automatic detection. (The `or "auto"`
      default for an empty argument is subsumed: blank already means auto.) */
  function NormalizeLanguage(language: string): (r: string)
    ensures r != "" && r != "none"
    ensures IsStripped(r) && Lower(r) == r
    ensures r != Auto ==> r == Lower(Strip(language))
    ensures Lower(Strip(language)) in {"", Auto, "none"} ==> r == Auto
  {
    var t := Lower(Strip(language));
    LowerKeepsStripped(Strip(language));
    AutoIsNormal();
    if t in {"", Auto, "none"} then Auto else t
  }

  /** Normalising a normalised language changes nothing. */
  lemma NormalizeLanguageIdempotent(language: string)
    ensures NormalizeLanguage(NormalizeLanguage(language)) == NormalizeLanguage(language)
  {
    var r := NormalizeLanguage(language);
    StrippedIsFixpoint(r);
  }

  /** `_to_bool`. */
  predicate ToBool(value: string) {
    Lower(Strip(value)) == "true"
  }

  /** Of the two values `--smart-refine-enabled` accepts, "true" turns
      refinement on and "false" (the default) leaves it off. */
  lemma ToBoolFlag(flag: string)
    requires flag == "true" || flag == "false"
    ensures ToBool(flag) <==> flag == "true"
  {
    assert IsStripped(flag);
    StrippedIsFixpoint(flag);
    LowerOfLower(flag);
  }

  /** `stop_result.get("language") or args.language`, then normalised; `None`
      when the stored value is truthy but has no `strip`. */
  function LanguageChoice(stored: Value, arg: string): Option<string> {
    if !Truthy(stored) then Some(NormalizeLanguage(arg))
    else if stored.Str? then Some(NormalizeLanguage(stored.s))
    else None
  }

  /** `stop_result.get("model") or args.model`. */
  function ModelChoice(stored: Value, arg: string): Value {
    if Truthy(stored) then stored else Str(arg)
  }

  // ---------------------------------------------------------------------
  // Commands and their environment
  // ---------------------------------------------------------------------

  /** The options `record` and `run` share. */
  datatype Options = Options(
    sampleRate: int, channels: int, model: string, language: string,
    smartMode: string, smartRefineEnabled: string)

  /** The defaults of those options, with `WHISPER_MODEL` and
      `WHISPER_LANGUAGE` unset. */
  const DefaultOptions: Options := Options(16000, 1, "small", "auto", SmartModeNormal, "false")

  /** A parsed command line; the flags keep their parsed values, so a
      combination the parser rejects can still be dispatched. */
  datatype Command =
    | Record(start: bool, stop: bool, opts: Options)
    | Run(mode: string, opts: Options)
    | ModelCmd(status: bool, ensure: bool, model: string)
    | Capture(audioPath: string, sampleRate: int, channels: int)

  /** What the argument parser lets through: one of the exclusive flags, and
      "toggle" as the only `run` mode. */
  predicate Parsed(cmd: Command) {
    match cmd
    case Record(start, stop, _) => start != stop
    case Run(mode, _) => mode == "toggle"
    case ModelCmd(status, ensure, _) => status != ensure
    case Capture(_, _, _) => true
  }

  /** What `transcribe_file` returns: stripped text, latency and whether the
      model had to be downloaded. */
  datatype Transcription = Transcription(text: string, latencyMs: int, modelDownloaded: bool)

  /** Everything outside the worker's own logic. Each call either returns or
      raises with a message. */
  datatype Env = Env(
    alive: set<int>,
    spawn: Result<Spawn, string>,
    sizes: map<string, nat>,
    transcribe: (string, Value, string) -> Result<Transcription, string>,
    queryLlm: QueryLlm,
    glossary: Table,
    modelIsAvailable: string -> Result<bool, string>,
    ensureModel: string -> Result<bool, string>,
    capture: (string, int, int) -> Result<int, string>,
    trace: string,
    modelDir: string)

  /** The payload emitted for an exception escaping a command. */
  function ExceptionPayload(message: string, trace: string): (p: Object)
    ensures "status" in p && p["status"] == Str("error")
  {
    map["error" := Str(message), "trace" := Str(trace), "status" := Str("error")]
  }

  const UnsupportedCommand: Object := map["error" := Str("unsupported_command"), "status" := Str("error")]

  const LanguageNotAString: string := "stored language has no strip()"
  const AudioPathMissing: string := "audio_path"

  /** `0 if payload.get("status") == "ok" else 1`. */
  function ExitCodeFor(payload: Object): (code: int)
    ensures code == 0 <==> "status" in payload && payload["status"] == Str("ok")
    ensures code == 0 || code == 1
  {
    if Get(payload, "status", Null) == Str("ok") then 0 else 1
  }

  /** The result of a command before the exception handler: the payload it
      emitted and its exit code, or the message it raised; and the session
      record it left. */
  datatype Handled = Handled(result: Result<(seq<Object>, int), string>, stored: Option<Object>)

  /** The successful stop payload. */
  function StopPayload(t: Transcription, refinedText: string, audioPath: string, model: Value, language: string,
                       smartMode: string, refined: bool): (p: Object)
    ensures "status" in p && p["status"] == Str("ok")
  {
    map[
      "text" := Str(refinedText), "latency_ms" := Int(t.latencyMs),
      "audio_path" := Str(audioPath), "model" := model, "language" := Str(language),
      "model_downloaded" := Bool(t.modelDownloaded), "workflow_mode" := Str(smartMode),
      "refined" := Bool(refined), "status" := Str("ok")]
  }

  /** The `model --status` payload. */
  function ModelStatusPayload(model: string, available: bool, modelDir: string): (p: Object)
    ensures "status" in p && p["status"] == Str("ok")
  {
    map["model" := Str(model), "is_available" := Bool(available), "model_dir" := Str(modelDir), "status" := Str("ok")]
  }

  /** The `model --ensure` payload. */
  function ModelEnsurePayload(model: string, downloaded: bool, modelDir: string): (p: Object)
    ensures "status" in p && p["status"] == Str("ok")
  {
    map["model" := Str(model), "downloaded" := Bool(downloaded), "is_available" := Bool(true),
        "model_dir" := Str(modelDir), "status" := Str("ok")]
  }

  /** The part of `_handle_stop` after a successful stop: pick the model and
      the language, transcribe, refine, and compose the payload; or the
      exception one of these raised. */
  function CompleteStop(opts: Options, result: Object, env: Env): (r: Result<Object, string>)
    ensures r.Success? ==> "status" in r.value && r.value["status"] == Str("ok")
  {
    var model := ModelChoice(Get(result, "model", Null), opts.model);
    match LanguageChoice(Get(result, "language", Null), opts.language)
    case None => Failure(LanguageNotAString)
    case Some(language) =>
      match Get(result, "audio_path", Null)
      case Str(audioPath) =>
        (match env.transcribe(audioPath, model, language)
         case Failure(e) => Failure(e)
         case Success(t) =>
           var smartMode := NormalizedMode(opts.smartMode);
           match RefineTranscript(t.text, smartMode, ToBool(opts.smartRefineEnabled), env.glossary, env.queryLlm)
           case Failure(e) => Failure(e)
           case Success(refinement) =>
             Success(StopPayload(t, refinement.0, audioPath, model, language, smartMode, refinement.1)))
      case _ => Failure(AudioPathMissing)
  }

  /** `_handle_stop`: stop the session; pass a non-ok result through with exit
      code 1; otherwise emit the composed payload with exit code 0. */
  function HandleStopSpec(opts: Options, stored: Option<Object>, env: Env): (r: Handled)
    ensures r.stored == StopSpec(stored, env.sizes).stored
    ensures r.result.Success? ==> |r.result.value.0| == 1
  {
    var stop := StopSpec(stored, env.sizes);
    match stop.outcome
    case Failure(e) => Handled(Failure(e), stop.stored)
    case Success(result) =>
      if Get(result, "status", Null) != Str("ok") then Handled(Success(([result], 1)), stop.stored)
      else
        match CompleteStop(opts, result, env)
        case Failure(e) => Handled(Failure(e), stop.stored)
        case Success(payload) => Handled(Success(([payload], 0)), stop.stored)
  }

  /** A start as `record --start` and `run` perform it. */
  function StartCommand(opts: Options, stored: Option<Object>, env: Env): Handled {
    var start := StartSpec(stored, opts.sampleRate, opts.channels, opts.model, NormalizeLanguage(opts.language),
                           env.alive, env.spawn);
    match start.outcome
    case Failure(e) => Handled(Failure(e), start.stored)
    case Success(payload) => Handled(Success(([payload], ExitCodeFor(payload))), start.stored)
  }

  /** The body of the `try` in `main`. The session file exists exactly when a
      record is stored. */
  function Dispatch(cmd: Command, stored: Option<Object>, env: Env): Handled {
    match cmd
    case Capture(audioPath, sampleRate, channels) =>
      (match env.capture(audioPath, sampleRate, channels)
       case Failure(e) => Handled(Failure(e), stored)
       case Success(code) => Handled(Success(([], code)), stored))
    case Record(start, stop, opts) =>
      if start then StartCommand(opts, stored, env)
      else if stop then HandleStopSpec(opts, stored, env)
      else Handled(Success(([UnsupportedCommand], 1)), stored)
    case Run(mode, opts) =>
      if mode != "toggle" then Handled(Success(([UnsupportedCommand], 1)), stored)
      else if stored.Some? then HandleStopSpec(opts, stored, env)
      else StartCommand(opts, stored, env)
    case ModelCmd(status, ensure, model) =>
      if status then
        (match env.modelIsAvailable(model)
         case Failure(e) => Handled(Failure(e), stored)
         case Success(available) =>
           Handled(Success(([ModelStatusPayload(model, available, env.modelDir)], 0)), stored))
      else if ensure then
        (match env.ensureModel(model)
         case Failure(e) => Handled(Failure(e), stored)
         case Success(downloaded) =>
           Handled(Success(([ModelEnsurePayload(model, downloaded, env.modelDir)], 0)), stored))
      else Handled(Success(([UnsupportedCommand], 1)), stored)
  }

  /** What one run of the worker leaves: the payloads written to stdout, the
      exit code and the session record. */
  datatype Exit = Exit(emitted: seq<Object>, code: int, stored: Option<Object>)

  /** The `except` clause of `main`: an exception becomes one error payload
      with exit code 1. */
  function Finish(h: Handled, trace: string): (r: Exit)
    ensures r.stored == h.stored
    ensures h.result.Success? ==> r.emitted == h.result.value.0 && r.code == h.result.value.1
    ensures h.result.Failure? ==> r.emitted == [ExceptionPayload(h.result.error, trace)] && r.code == 1
  {
    match h.result
    case Failure(e) => Exit([ExceptionPayload(e, trace)], 1, h.stored)
    case Success(out) => Exit(out.0, out.1, h.stored)
  }

  /** `main` after argument parsing. */
  function MainSpec(cmd: Command, stored: Option<Object>, env: Env): Exit {
    Finish(Dispatch(cmd, stored, env), env.trace)
  }

  // ---------------------------------------------------------------------
  // The imperative `main` and `_handle_stop`
  // ---------------------------------------------------------------------

  /** Standard output, one JSON payload per line. */
  class Stdout {
    var lines: seq<Object>

    constructor()
      ensures lines == []
    {
      lines := [];
    }

    /** `emit`. */
    method Emit(payload: Object)
      modifies this
      ensures lines == old(lines) + [payload]
    {
      lines := lines + [payload];
    }
  }

  /** Writes the payload `h` settles on, if any, and says which exit code or
      exception it carries. */
  method EmitHandled(h: Handled, out: Stdout) returns (code: Result<int, string>)
    requires h.result.Success? ==> |h.result.value.0| <= 1
    modifies out
    ensures code.Failure? <==> h.result.Failure?
    ensures h.result.Failure? ==> code.error == h.result.error && out.lines == old(out.lines)
    ensures h.result.Success? ==> code.value == h.result.value.1 && out.lines == old(out.lines) + h.result.value.0
  {
    if h.result.Failure? {
      return Failure(h.result.error);
    }
    if |h.result.value.0| == 1 {
      out.Emit(h.result.value.0[0]);
    }
    return Success(h.result.value.1);
  }

  /** `_handle_stop`. */
  method HandleStop(opts: Options, dir: StateDirectory, out: Stdout, env: Env) returns (r: Result<int, string>)
    modifies dir, out
    ensures var spec := HandleStopSpec(opts, old(dir.session), env);
      && dir.session == spec.stored
      && (r.Failure? <==> spec.result.Failure?)
      && (spec.result.Failure? ==> r.error == spec.result.error && out.lines == old(out.lines))
      && (spec.result.Success? ==> r.value == spec.result.value.1 && out.lines == old(out.lines) + spec.result.value.0)
  {
    ghost var spec := HandleStopSpec(opts, dir.session, env);
    var stopResult := dir.StopRecording(env.sizes);
    assert Step(stopResult, dir.session) == StopSpec(old(dir.session), env.sizes);
    if stopResult.Failure? {
      return Failure(stopResult.error);
    }
    var result := stopResult.value;
    if Get(result, "status", Null) != Str("ok") {
      out.Emit(result);
      return Success(1);
    }
    var model := ModelChoice(Get(result, "model", Null), opts.model);
    var language := LanguageChoice(Get(result, "language", Null), opts.language);
    if language.None? {
      return Failure(LanguageNotAString);
    }
    var audioPath := Get(result, "audio_path", Null);
    if !audioPath.Str? {
      return Failure(AudioPathMissing);
    }
    var transcribed := env.transcribe(audioPath.s, model, language.value);
    if transcribed.Failure? {
      return Failure(transcribed.error);
    }
    var t := transcribed.value;
    var smartMode := NormalizedMode(opts.smartMode);
    var refinement := RefineTranscript(t.text, smartMode, ToBool(opts.smartRefineEnabled), env.glossary, env.queryLlm);
    if refinement.Failure? {
      return Failure(refinement.error);
    }
    out.Emit(StopPayload(t, refinement.value.0, audioPath.s, model, language.value, smartMode, refinement.value.1));
    r := Success(0);
  }

  /** `main` after argument parsing. */
  method RunMain(cmd: Command, dir: StateDirectory, out: Stdout, env: Env) returns (code: int)
    modifies dir, out
    ensures var spec := MainSpec(cmd, old(dir.session), env);
      code == spec.code && dir.session == spec.stored && out.lines == old(out.lines) + spec.emitted
  {
    var r: Result<int, string>;
    match cmd {
      case Capture(audioPath, sampleRate, channels) =>
        r := EmitHandled(Dispatch(cmd, dir.session, env), out);
      case Record(start, stop, opts) =>
        if start {
          r := Start(opts, dir, out, env);
        } else if stop {
          r := HandleStop(opts, dir, out, env);
        } else {
          out.Emit(UnsupportedCommand);
          r := Success(1);
        }
      case Run(mode, opts) =>
        if mode != "toggle" {
          out.Emit(UnsupportedCommand);
          r := Success(1);
        } else {
          var sessionFileExists := dir.session.Some?;
          if sessionFileExists {
            r := HandleStop(opts, dir, out, env);
          } else {
            r := Start(opts, dir, out, env);
          }
        }
      case ModelCmd(status, ensure, model) =>
        r := EmitHandled(Dispatch(cmd, dir.session, env), out);
    }
    if r.Failure? {
      out.Emit(ExceptionPayload(r.error, env.trace));
      return 1;
    }
    code := r.value;
  }

  /** The start branch shared by `record --start` and `run`. */
  method Start(opts: Options, dir: StateDirectory, out: Stdout, env: Env) returns (r: Result<int, string>)
    modifies dir, out
    ensures var spec := StartCommand(opts, old(dir.session), env);
      && dir.session == spec.stored
      && (r.Failure? <==> spec.result.Failure?)
      && (spec.result.Failure? ==> r.error == spec.result.error && out.lines == old(out.lines))
      && (spec.result.Success? ==> r.value == spec.result.value.1 && out.lines == old(out.lines) + spec.result.value.0)
  {
    var payload := dir.StartRecording(opts.sampleRate, opts.channels, opts.model, NormalizeLanguage(opts.language),
                                      env.alive, env.spawn);
    if payload.Failure? {
      return Failure(payload.error);
    }
    out.Emit(payload.value);
    r := Success(ExitCodeFor(payload.value));
  }

  // ---------------------------------------------------------------------
  // Properties of the command line
  // ---------------------------------------------------------------------

  /** The payload a command settles on has status "ok" or "error", and the
      exit code is 0 exactly when it is "ok". */
  predicate WellReported(emitted: seq<Object>, code: int) {
    && |emitted| == 1
    && "status" in emitted[0]
    && emitted[0]["status"] in {Str("ok"), Str("error")}
    && (code == 0 <==> emitted[0]["status"] == Str("ok"))
  }

  /** The payload of a start or a stop is `Detailed`, and the exit code is 0
      exactly when it is "ok". */
  predicate DetailedReport(emitted: seq<Object>, code: int) {
    |emitted| == 1 && Detailed(emitted[0]) && (code == 0 <==> emitted[0]["status"] == Str("ok"))
  }

  lemma StartCommandReports(opts: Options, stored: Option<Object>, env: Env)
    ensures var h := StartCommand(opts, stored, env);
      h.result.Success? ==> DetailedReport(h.result.value.0, h.result.value.1)
  {
    StartPayloadStatus(stored, opts.sampleRate, opts.channels, opts.model, NormalizeLanguage(opts.language), env.alive, env.spawn);
  }

  lemma HandleStopReports(opts: Options, stored: Option<Object>, env: Env)
    ensures var h := HandleStopSpec(opts, stored, env);
      h.result.Success? ==> DetailedReport(h.result.value.0, h.result.value.1)
  {
    StopPayloadStatus(stored, env.sizes);
  }

  lemma RecordReports(start: bool, stop: bool, opts: Options, stored: Option<Object>, env: Env)
    ensures var r := MainSpec(Record(start, stop, opts), stored, env); WellReported(r.emitted, r.code)
  {
    var h := Dispatch(Record(start, stop, opts), stored, env);
    if start {
      assert h == StartCommand(opts, stored, env);
      StartCommandReports(opts, stored, env);
    } else if stop {
      assert h == HandleStopSpec(opts, stored, env);
      HandleStopReports(opts, stored, env);
    }
  }

  lemma RunReports(mode: string, opts: Options, stored: Option<Object>, env: Env)
    ensures var r := MainSpec(Run(mode, opts), stored, env); WellReported(r.emitted, r.code)
  {
    var h := Dispatch(Run(mode, opts), stored, env);
    if mode == "toggle" && stored.None? {
      assert h == StartCommand(opts, stored, env);
      StartCommandReports(opts, stored, env);
    } else if mode == "toggle" {
      assert h == HandleStopSpec(opts, stored, env);
      HandleStopReports(opts, stored, env);
    }
  }

  /** Every command but `_capture` writes exactly one payload, with status
      "ok" or "error", and exits with 0 exactly when the status is "ok". */
  lemma ExitCodeMatchesStatus(cmd: Command, stored: Option<Object>, env: Env)
    requires !cmd.Capture?
    ensures var r := MainSpec(cmd, stored, env); WellReported(r.emitted, r.code)
  {
    match cmd
    case Record(start, stop, opts) => RecordReports(start, stop, opts, stored, env);
    case Run(mode, opts) => RunReports(mode, opts, stored, env);
    case ModelCmd(_, _, _) =>
  }

  /** `run --mode toggle` is `record --stop` when the session file exists and
      `record --start` otherwise. */
  lemma ToggleIsStopOrStart(opts: Options, stored: Option<Object>, env: Env)
    ensures MainSpec(Run("toggle", opts), stored, env) == MainSpec(Record(stored.None?, stored.Some?, opts), stored, env)
  {
  }

  /** A stop result whose status is not "ok" is written as it is, with exit
      code 1; the record is left as the stop left it. */
  lemma FailedStopPassesThrough(opts: Options, stored: Option<Object>, env: Env)
    requires StopSpec(stored, env.sizes).outcome.Success?
    requires Get(StopSpec(stored, env.sizes).outcome.value, "status", Null) != Str("ok")
    ensures MainSpec(Record(false, true, opts), stored, env)
      == Exit([StopSpec(stored, env.sizes).outcome.value], 1, StopSpec(stored, env.sizes).stored)
  {
  }

  /** `unsupported_command` is reported for the flag combinations that
      select no branch. */
  lemma UnsupportedCommandCases(cmd: Command, stored: Option<Object>, env: Env)
    requires (cmd.Record? && !cmd.start && !cmd.stop) || (cmd.Run? && cmd.mode != "toggle")
            || (cmd.ModelCmd? && !cmd.status && !cmd.ensure)
    ensures MainSpec(cmd, stored, env) == Exit([UnsupportedCommand], 1, stored)
  {
  }

  /** A command the parser accepts is never reported as unsupported. */
  lemma ParsedIsSupported(cmd: Command, stored: Option<Object>, env: Env)
    requires Parsed(cmd)
    ensures MainSpec(cmd, stored, env).emitted != [UnsupportedCommand]
  {
    match cmd {
      case Record(start, stop, opts) =>
        if start {
          StartIsSupported(opts, stored, env);
        } else {
          StopIsSupported(opts, stored, env);
        }
      case Run(mode, opts) =>
        if stored.None? {
          StartIsSupported(opts, stored, env);
        } else {
          StopIsSupported(opts, stored, env);
        }
      case ModelCmd(_, _, _) =>
        var h := Dispatch(cmd, stored, env);
        if h.result.Failure? {
          ExceptionIsNotUnsupported(h.result.error, env.trace);
        }
      case Capture(_, _, _) =>
        var h := Dispatch(cmd, stored, env);
        if h.result.Failure? {
          ExceptionIsNotUnsupported(h.result.error, env.trace);
        }
    }
  }

  lemma StartIsSupported(opts: Options, stored: Option<Object>, env: Env)
    ensures Finish(StartCommand(opts, stored, env), env.trace).emitted != [UnsupportedCommand]
  {
    var h := StartCommand(opts, stored, env);
    StartCommandReports(opts, stored, env);
    if h.result.Success? {
      DetailedIsNotUnsupported(h.result.value.0[0]);
    } else {
      ExceptionIsNotUnsupported(h.result.error, env.trace);
    }
  }

  lemma StopIsSupported(opts: Options, stored: Option<Object>, env: Env)
    ensures Finish(HandleStopSpec(opts, stored, env), env.trace).emitted != [UnsupportedCommand]
  {
    var h := HandleStopSpec(opts, stored, env);
    HandleStopReports(opts, stored, env);
    if h.result.Success? {
      DetailedIsNotUnsupported(h.result.value.0[0]);
    } else {
      ExceptionIsNotUnsupported(h.result.error, env.trace);
    }
  }

  /** A `Detailed` payload is not the `unsupported_command` one. */
  lemma DetailedIsNotUnsupported(p: Object)
    ensures Detailed(p) ==> p != UnsupportedCommand
  {
    assert "details" !in UnsupportedCommand;
  }

  /** An exception payload is not the `unsupported_command` one. */
  lemma ExceptionIsNotUnsupported(message: string, trace: string)
    ensures ExceptionPayload(message, trace) != UnsupportedCommand
  {
    assert "trace" in ExceptionPayload(message, trace);
    assert "trace" !in UnsupportedCommand;
  }

  /** `_handle_stop` on a session record with a positive pid, a non-empty
      audio file, and the model and language a start stores. */
  lemma HandleStopOfSession(opts: Options, state: Object, env: Env, path: string, model: string, language: string)
    requires state != map[] && StoredPid(state).Some? && StoredPid(state).value > 0
    requires AudioPathOf(state) == Some(path) && path in env.sizes && env.sizes[path] > 0
    requires Get(state, "model", Null) == Str(model) && model != ""
    requires Get(state, "language", Null) == Str(language) && language == NormalizeLanguage(language)
    requires env.transcribe(path, Str(model), language).Success?
    requires RefineTranscript(env.transcribe(path, Str(model), language).value.text, NormalizedMode(opts.smartMode),
                              ToBool(opts.smartRefineEnabled), env.glossary, env.queryLlm).Success?
    ensures var t := env.transcribe(path, Str(model), language).value;
      var refinement := RefineTranscript(t.text, NormalizedMode(opts.smartMode), ToBool(opts.smartRefineEnabled), env.glossary, env.queryLlm).value;
      HandleStopSpec(opts, Some(state), env)
        == Handled(Success(([StopPayload(t, refinement.0, path, Str(model), language, NormalizedMode(opts.smartMode), refinement.1)], 0)), None)
  {
    StopReportsRecording(state, env.sizes);
    var result := StopSpec(Some(state), env.sizes).outcome.value;
    CompleteStopOf(opts, result, env, path, model, language);
  }

  /** The composition step of `_handle_stop`, for a stop result carrying a
      model, an already normalised language and an audio path. */
  lemma CompleteStopOf(opts: Options, result: Object, env: Env, path: string, model: string, language: string)
    requires Get(result, "model", Null) == Str(model) && model != ""
    requires Get(result, "language", Null) == Str(language) && language == NormalizeLanguage(language)
    requires Get(result, "audio_path", Null) == Str(path)
    requires env.transcribe(path, Str(model), language).Success?
    requires RefineTranscript(env.transcribe(path, Str(model), language).value.text, NormalizedMode(opts.smartMode),
                              ToBool(opts.smartRefineEnabled), env.glossary, env.queryLlm).Success?
    ensures var t := env.transcribe(path, Str(model), language).value;
      var refinement := RefineTranscript(t.text, NormalizedMode(opts.smartMode), ToBool(opts.smartRefineEnabled), env.glossary, env.queryLlm).value;
      CompleteStop(opts, result, env) == Success(StopPayload(t, refinement.0, path, Str(model), language, NormalizedMode(opts.smartMode), refinement.1))
  {
  }

  /** A session recorded with `record --start` and ended with `record --stop`
      reports the model and the normalised language the start was given
      (normalising again changes nothing), the recorded audio path, the
      requested workflow mode, and the transcript as refined; and it leaves
      no session behind. */
  lemma StartThenStop(start: Options, stop: Options, env: Env)
    requires env.spawn.Success? && env.spawn.value.pid > 0 && env.spawn.value.audioPath != ""
    requires start.model != ""
    requires var path := env.spawn.value.audioPath; path in env.sizes && env.sizes[path] > 0
    requires env.transcribe(env.spawn.value.audioPath, Str(start.model), NormalizeLanguage(start.language)).Success?
    requires var t := env.transcribe(env.spawn.value.audioPath, Str(start.model), NormalizeLanguage(start.language)).value;
      RefineTranscript(t.text, NormalizedMode(stop.smartMode), ToBool(stop.smartRefineEnabled), env.glossary, env.queryLlm).Success?
    ensures var started := MainSpec(Record(true, false, start), None, env);
      var stopped := MainSpec(Record(false, true, stop), started.stored, env);
      var t := env.transcribe(env.spawn.value.audioPath, Str(start.model), NormalizeLanguage(start.language)).value;
      var refinement := RefineTranscript(t.text, NormalizedMode(stop.smartMode), ToBool(stop.smartRefineEnabled), env.glossary, env.queryLlm).value;
      && started.code == 0 && stopped.code == 0 && stopped.stored == None
      && stopped.emitted == [StopPayload(t, refinement.0, env.spawn.value.audioPath, Str(start.model),
                                         NormalizeLanguage(start.language), NormalizedMode(stop.smartMode), refinement.1)]
  {
    var proc := env.spawn.value;
    var language := NormalizeLanguage(start.language);
    var record := SessionRecord(proc, start.sampleRate, start.channels, start.model, language);
    StartFromNoSession(start, env);
    SessionRecordFields(proc, start.sampleRate, start.channels, start.model, language);
    NormalizeLanguageIdempotent(start.language);
    HandleStopOfSession(stop, record, env, proc.audioPath, start.model, language);
    assert MainSpec(Record(false, true, stop), Some(record), env) == Finish(HandleStopSpec(stop, Some(record), env), env.trace);
  }

  /** `record --start` with no session records one and exits with 0. */
  lemma StartFromNoSession(start: Options, env: Env)
    requires env.spawn.Success?
    ensures var proc := env.spawn.value;
      MainSpec(Record(true, false, start), None, env)
        == Exit([StartedPayload(proc)], 0,
                Some(SessionRecord(proc, start.sampleRate, start.channels, start.model, NormalizeLanguage(start.language))))
  {
    var proc := env.spawn.value;
    assert StartedPayload(proc)["status"] == Str("ok");
    assert Dispatch(Record(true, false, start), None, env) == StartCommand(start, None, env);
  }
}
