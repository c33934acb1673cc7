/** How the two halves fit together: the values the menu-bar client sends are
    the ones the worker accepts, and the payloads the worker emits reach the
    client meaning what the worker meant. */
module WireContract {
  import opened Wrappers
  import opened Text
  import opened Json
  import opened PromptTemplates
  import opened SmartWorkflow
  import opened Cli
  import SmartWorkflowMode
  import opened BackendClient
  import MenuBarApp
  import Recorder
  import JsonLine

  /** The client's modes are the worker's `SMART_MODES`, in the same order,
      with the same default, and exactly the non-default ones have a
      template. */
  lemma ModesAgree(m: SmartWorkflowMode.Mode)
    ensures seq(|SmartWorkflowMode.AllCases|, i requires 0 <= i < |SmartWorkflowMode.AllCases| =>
              SmartWorkflowMode.RawValue(SmartWorkflowMode.AllCases[i])) == SmartModes
    ensures SmartWorkflowMode.RawValue(SmartWorkflowMode.Normal) == SmartModeNormal == DefaultOptions.smartMode
    ensures SmartWorkflowMode.RawValue(m) in Templates <==> m != SmartWorkflowMode.Normal
  {
    ModeHasTemplate(m);
  }

  /** The client's default model and language are the worker's defaults. */
  lemma DefaultsAgree()
    ensures MenuBarApp.DefaultSettings.whisperModel == DefaultOptions.model
    ensures MenuBarApp.DefaultSettings.whisperLanguage == DefaultOptions.language
  {
  }

  /** The refinement flag and mode the client sends on stop are read back by
      the worker as sent: the flag through `_to_bool`, the mode unchanged by
      the empty-mode default, and refinement happens exactly for an enabled
      non-default mode. */
  lemma StopFlagsReachWorker(smartRefineEnabled: bool, mode: SmartWorkflowMode.Mode)
    ensures ToBool(FlagText(smartRefineEnabled)) == smartRefineEnabled
    ensures NormalizedMode(SmartWorkflowMode.RawValue(mode)) == SmartWorkflowMode.RawValue(mode)
    ensures ShouldRefine(SmartWorkflowMode.RawValue(mode), smartRefineEnabled)
      <==> smartRefineEnabled && mode != SmartWorkflowMode.Normal
  {
    ToBoolFlag(FlagText(smartRefineEnabled));
    ModeHasTemplate(mode);
  }

  lemma ModeHasTemplate(mode: SmartWorkflowMode.Mode)
    ensures SmartWorkflowMode.RawValue(mode) in Templates <==> mode != SmartWorkflowMode.Normal
  {
    TemplateKeys();
  }

  /** A stop payload the worker composed for the mode the client sent decodes
      on the client to exactly the text, latency, download flag, refinement
      flag and mode the worker put in it. */
  lemma StopPayloadDecodes(t: Transcription, refinedText: string, audioPath: string, model: Value, language: string,
                           mode: SmartWorkflowMode.Mode, refined: bool)
    ensures var p := StopPayload(t, refinedText, audioPath, model, language, SmartWorkflowMode.RawValue(mode), refined);
      TranscriptionReply(Success(p)) == Success(TranscriptionResult(refinedText, t.latencyMs, t.modelDownloaded, refined, mode))
  {
    var p := StopPayload(t, refinedText, audioPath, model, language, SmartWorkflowMode.RawValue(mode), refined);
    DecodeReadsFields(p, refinedText, t.latencyMs, t.modelDownloaded, refined, mode);
  }

  /** The model payloads decode to the flag the worker reported. */
  lemma ModelPayloadsDecode(model: string, flag: bool, modelDir: string)
    ensures FlagReply(Success(ModelStatusPayload(model, flag, modelDir)), ModelStatusFallback, "is_available") == Success(flag)
    ensures FlagReply(Success(ModelEnsurePayload(model, flag, modelDir)), ModelEnsureFallback, "downloaded") == Success(flag)
  {
  }

  /** Every payload the worker emits, with the exit code it emits it with,
      reaches the client's status check whole: an `ok` payload exits 0 and an
      `error` payload is let through despite its exit code 1. */
  lemma EmittedPayloadIsAccepted(p: Object, before: string, line: string, stderr: string, parse: Parser)
    requires "status" in p && (p["status"] == Str("ok") || p["status"] == Str("error"))
    requires line != [] && HasNoNewline(line) && parse(line) == Parsed(p)
    requires before == [] || IsNewline(before[|before| - 1])
    ensures InterpretResponse(before + line + "\n", stderr, ExitCodeFor(p), parse) == Success(p)
  {
    ResponseIsLastLine(before, line, "\n", stderr, ExitCodeFor(p), parse);
  }

  /** An error payload of the worker becomes, on the client, a failed command
      whose message is the payload's error code. */
  lemma WorkerErrorReachesClient(code: string, details: string, fallback: string)
    ensures Checked(Success(Recorder.ErrorPayload(code, details)), fallback) == Failure(Backend(CommandFailed(code)))
    ensures Checked(Success(ExceptionPayload(code, details)), fallback) == Failure(Backend(CommandFailed(code)))
  {
  }

  /** In particular the worker's refusals reach the menu as their codes. */
  lemma RefusalsReachClient(fallback: string)
    ensures Checked(Success(Recorder.AlreadyRunning), fallback) == Failure(Backend(CommandFailed("recording_already_running")))
    ensures Checked(Success(Recorder.NoActiveRecording), fallback) == Failure(Backend(CommandFailed("no_active_recording")))
    ensures Checked(Success(UnsupportedCommand), fallback) == Failure(Backend(CommandFailed("unsupported_command")))
  {
    WorkerErrorReachesClient("recording_already_running", "A recording session is already in progress.", fallback);
    WorkerErrorReachesClient("no_active_recording", "No active recording session found.", fallback);
  }

  /** With the line-safe escaping, every flat payload the worker emits, under
      the exit code it emits it with, reaches the client whole, whatever
      complete lines were written to stdout before it. */
  lemma CorrectedPayloadReachesClient(entries: JsonLine.Entries, p: Object, before: string, stderr: string, parse: Parser)
    requires JsonLine.Flat(entries)
    requires parse(JsonLine.Dumps(entries, JsonLine.LineSafeEscape)) == Parsed(p)
    requires "status" in p && (p["status"] == Str("ok") || p["status"] == Str("error"))
    requires before == [] || IsNewline(before[|before| - 1])
    ensures InterpretResponse(before + JsonLine.Emit(entries, JsonLine.LineSafeEscape), stderr, ExitCodeFor(p), parse) == Success(p)
  {
    var line := JsonLine.Dumps(entries, JsonLine.LineSafeEscape);
    JsonLine.LineSafeEscapeIsLineSafe();
    JsonLine.DumpsLineSafe(entries, JsonLine.LineSafeEscape);
    assert before + JsonLine.Emit(entries, JsonLine.LineSafeEscape) == before + line + "\n";
    EmittedPayloadIsAccepted(p, before, line, stderr, parse);
  }
}
