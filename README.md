# Whisper Clip, modelled in Dafny

Whisper Clip is a macOS menu-bar dictation tool with two halves.

- **The menu-bar app (Swift).** A hot-key toggle starts and stops a recording. The app shows its status and copies the transcript to the clipboard. It can also paste the transcript.
- **The worker (Python, `stt_backend`).** The app runs it as a subprocess for every request. The worker keeps one recording session on disk and transcribes the audio with a Whisper model. It can optionally "smart-refine" the draft through a language model. It answers with one JSON payload per line on stdout, with exit code 0 exactly when the payload's `status` is `"ok"`.

This project models the core of both halves and the protocol between them. Each source file has its own module.

| file | module | models |
|---|---|---|
| `app_state.dfy` | `MenuBarApp` | `AppState`: the status machine, as pure steps on a `Snapshot` and as a class with one method per Swift method |
| `backend_client.dfy` | `BackendClient` | locating the interpreter and repository, `runBackend`'s response mapping, the four requests' status checks and decoding |
| `smart_workflow_mode.dfy`, `llm_backend_provider.dfy` | `SmartWorkflowMode`, `LLMBackendProvider` | the two Swift enums |
| `recorder.dfy` | `Recorder` | the session record store (a class over an optional record) and the start/stop decisions |
| `cli.dfy` | `Cli` | argument normalisation, `_handle_stop`, `main`'s dispatch and exit codes (pure specs and methods writing to a `Stdout` object) |
| `smart_workflow.dfy`, `prompt_templates.dfy`, `user_glossary.dfy` | `SmartWorkflow`, `PromptTemplates`, `UserGlossary` | the refine decision, prompt assembly, the LLM fallback and glossary rendering |
| `json_line.dfy` | `JsonLine` | the worker's line serialiser, only as far as the line-break finding below needs |
| `wire_contract.dfy` | `WireContract` | lemmas joining the two halves: the values the app sends are read by the worker as sent, and the worker's payloads reach the app meaning what they meant |
| `text.dfy`, `json.dfy`, `wrappers.dfy` | `Text`, `Json`, `Wrappers` | shared vocabulary: Python's `strip`/`lower`/`title`, Swift's newline split, decoded JSON and `as?` casts, `Option`/`Result` |

A last stdout line that is not JSON makes `JSONSerialization` throw its own error (`BackendClient.swift:152`), so the model returns `ClientError.Foundation` for it. Only a line that parses to something other than an object gives `invalidResponse` (`BackendClient.swift:153-155`).

Outside behaviour is passed in as parameters:

- process launch (`Launch`);
- JSON parsing (`Parser`);
- transcription, model availability, capture spawning and the LLM hook (fields of `Cli.Env`, and `SmartWorkflow.QueryLlm`);
- process liveness (a set of live pids);
- file sizes (a map from path to size);
- the host environment, working directory and existing paths (`BackendClient.Host`).

Python exceptions are `Result.Failure` values carrying a message.

## Model

| member | source | states |
|---|---|---|
| `MenuBarApp.StatusIconNamesDistinct` | macos/WhisperClipMenuBar/Sources/WhisperClipMenuBarApp/AppState.swift:39-47 | the five statuses have five different icon names (both directions) |
| `MenuBarApp.ToggleAtRestStarts` | macos/WhisperClipMenuBar/Sources/WhisperClipMenuBarApp/AppState.swift:68-74 | from idle, copied or failed, a toggle starts a recording. Status becomes recording with "Recording…" and `lastError` is cleared. Exactly one start request with the current model and language is issued. The transcription, clipboard and notifications are kept |
| `MenuBarApp.ToggleWhileRecordingStops` | macos/WhisperClipMenuBar/Sources/WhisperClipMenuBarApp/AppState.swift:88-94 | from recording, a toggle sets transcribing with "Transcribing…". It issues exactly one stop request carrying the auto-paste setting, the refine flag and the mode. `lastError` and the transcription are kept |
| `MenuBarApp.ToggleWhileTranscribingIsIgnored` | macos/WhisperClipMenuBar/Sources/WhisperClipMenuBarApp/AppState.swift:55-56 | a toggle while transcribing leaves the whole state unchanged, so two toggles from recording give exactly one stop |
| `MenuBarApp.StopSuccessCopies` | macos/WhisperClipMenuBar/Sources/WhisperClipMenuBarApp/AppState.swift:100-111 | a successful stop sets `lastTranscription` and the clipboard to the text, with status copied and "Copied ✅". `lastError` is untouched. It pastes once exactly when auto-paste is on, and posts the success notification |
| `MenuBarApp.FailureFromAnyStatus` | macos/WhisperClipMenuBar/Sources/WhisperClipMenuBarApp/AppState.swift:120-125 | a failed start or stop, from any status, sets failed with "Failed ❌" and `lastError` set to the error's message. It posts one failure notification carrying that message. The transcription, clipboard and requests are kept |
| `MenuBarApp.StartSuccessChangesNothing` | macos/WhisperClipMenuBar/Sources/WhisperClipMenuBarApp/AppState.swift:76-79 | a start that succeeds leaves the state as the toggle left it |
| `MenuBarApp.CopyLastCases` | macos/WhisperClipMenuBar/Sources/WhisperClipMenuBarApp/AppState.swift:60-66 | with no transcription, copying changes nothing. Otherwise it copies the transcription and sets copied from any status. Nothing else changes |
| `MenuBarApp.CuesOnlyWhenEnabled` | macos/WhisperClipMenuBar/Sources/WhisperClipMenuBarApp/AppState.swift:127-130 | no step beeps with sound cues off, no step beeps more than once, and no step changes the settings |
| `MenuBarApp.TranscriptionChangesOnlyOnStop` | macos/WhisperClipMenuBar/Sources/WhisperClipMenuBarApp/AppState.swift:100-103 | when a step changes `lastTranscription`, the step was a successful stop, and the new value is its text |
| `MenuBarApp.InitialIsConsistent` | macos/WhisperClipMenuBar/Sources/WhisperClipMenuBarApp/AppState.swift:16-24 | the initial state is idle with "Idle" and icon "mic", and is `Consistent` |
| `MenuBarApp.ApplyKeepsConsistent` | macos/WhisperClipMenuBar/Sources/WhisperClipMenuBarApp/AppState.swift:49-125 | every step keeps the status text equal to the status's text, and while copied, keeps the clipboard equal to the last transcription |
| `MenuBarApp.ApplyAllKeepsConsistent` | macos/WhisperClipMenuBar/Sources/WhisperClipMenuBarApp/AppState.swift:49-125 | the same invariant holds after any sequence of toggles, copies and completions |
| `MenuBarApp.AppState.constructor` | macos/WhisperClipMenuBar/Sources/WhisperClipMenuBarApp/AppState.swift:16-24 | the published fields and defaults: idle, "Idle", empty texts, default settings |
| `MenuBarApp.AppState.PlayCueIfNeeded` | macos/WhisperClipMenuBar/Sources/WhisperClipMenuBarApp/AppState.swift:127-130 | beeps (counts one cue) exactly when sound cues are on; changes only the cue count |
| `MenuBarApp.AppState.ToggleRecording` | macos/WhisperClipMenuBar/Sources/WhisperClipMenuBarApp/AppState.swift:49-58 | the new state is `ToggleSpec` of the old one |
| `MenuBarApp.AppState.CopyLastTranscription` | macos/WhisperClipMenuBar/Sources/WhisperClipMenuBarApp/AppState.swift:60-66 | the new state is `CopyLastSpec` of the old one |
| `MenuBarApp.AppState.StartRecording` | macos/WhisperClipMenuBar/Sources/WhisperClipMenuBarApp/AppState.swift:68-79 | the new state is `StartRecordingSpec` of the old one (the synchronous part, up to handing off the request) |
| `MenuBarApp.AppState.StopRecordingAndTranscribe` | macos/WhisperClipMenuBar/Sources/WhisperClipMenuBarApp/AppState.swift:88-99 | the new state is `StopRecordingSpec` of the old one (the synchronous part) |
| `MenuBarApp.AppState.ApplyFailure` | macos/WhisperClipMenuBar/Sources/WhisperClipMenuBarApp/AppState.swift:120-125 | the new state is `ApplyFailureSpec` of the old one |
| `MenuBarApp.AppState.RecordStartCompleted` | macos/WhisperClipMenuBar/Sources/WhisperClipMenuBarApp/AppState.swift:80-83 | the asynchronous completion of the start request; the new state is `StartCompletedSpec` of the old one |
| `MenuBarApp.AppState.RecordStopCompleted` | macos/WhisperClipMenuBar/Sources/WhisperClipMenuBarApp/AppState.swift:100-115 | the asynchronous completion of the stop request, success or failure; the new state is `StopCompletedSpec` of the old one |
| `BackendClient.ErrorDescriptionInjective` | macos/WhisperClipMenuBar/Sources/WhisperClipMenuBarApp/BackendClient.swift:11-26 | within one kind, two errors have the same message iff they are equal |
| `BackendClient.RepoRootChoice` | macos/WhisperClipMenuBar/Sources/WhisperClipMenuBarApp/BackendClient.swift:183-198 | the root is the non-empty `WHISPER_CLIP_REPO_ROOT` when set. Otherwise it is the nearest of the working directory and its ancestors, at most 6 in all, that holds `backend`, with every nearer one lacking it. When none of them holds `backend`, it is the working directory |
| `BackendClient.AncestorOfParent` | macos/WhisperClipMenuBar/Sources/WhisperClipMenuBarApp/BackendClient.swift:194-195 | one step up, then k more, is k + 1 steps up |
| `BackendClient.SearchUpMisses` | macos/WhisperClipMenuBar/Sources/WhisperClipMenuBarApp/BackendClient.swift:188-197 | the walk finds nothing iff none of the n directories it visits (the start and its ancestors) holds `backend` |
| `BackendClient.SearchUpHits` | macos/WhisperClipMenuBar/Sources/WhisperClipMenuBarApp/BackendClient.swift:188-197 | a hit is the nearest visited directory holding `backend` |
| `BackendClient.RepoRootURL` | macos/WhisperClipMenuBar/Sources/WhisperClipMenuBarApp/BackendClient.swift:183-198 | the loop returns `RepoRoot`: the non-empty override, else the first of at most 6 directories from the cwd upward that holds `backend`, else the cwd |
| `BackendClient.PythonExecutableChoice` | macos/WhisperClipMenuBar/Sources/WhisperClipMenuBarApp/BackendClient.swift:164-176 | the interpreter is the non-empty `WHISPER_CLIP_PYTHON`. Otherwise it is `<repo>/.venv/bin/python3` when that exists. Otherwise it is `/usr/bin/python3` |
| `BackendClient.FoundRootHasBackend` | macos/WhisperClipMenuBar/Sources/WhisperClipMenuBarApp/BackendClient.swift:178-181 | when the walk finds the repository, the `PYTHONPATH` the worker gets names an existing `backend` path (`fileExists` holds for a file as well as a directory) |
| `BackendClient.WorkerInvocation` | macos/WhisperClipMenuBar/Sources/WhisperClipMenuBarApp/BackendClient.swift:112-117 | the arguments are `-m stt_backend` followed by the request's arguments. `PYTHONPATH` is the backend path. Every other variable is inherited unchanged |
| `BackendClient.RunBackend` | macos/WhisperClipMenuBar/Sources/WhisperClipMenuBarApp/BackendClient.swift:105-162 | the method, including its stderr-collecting loop, returns `RunBackendSpec` |
| `BackendClient.NoLineIsInvalid` | macos/WhisperClipMenuBar/Sources/WhisperClipMenuBarApp/BackendClient.swift:146-151 | stdout with no line gives `invalidResponse(stdout + "\n" + stderr)` |
| `BackendClient.ResponseIsLastLine` | macos/WhisperClipMenuBar/Sources/WhisperClipMenuBarApp/BackendClient.swift:146-161 | only the last line counts. It succeeds iff it parses to an object and the exit is 0 or the status is "error". A non-object is `invalidResponse(stdout + "\n" + stderr)`. A parse error is the Foundation error |
| `BackendClient.CommandFailedReason` | macos/WhisperClipMenuBar/Sources/WhisperClipMenuBarApp/BackendClient.swift:157-161 | `commandFailed` arises only from a non-zero exit, and carries stderr if non-empty, else stdout |
| `BackendClient.MissingInterpreter` | macos/WhisperClipMenuBar/Sources/WhisperClipMenuBarApp/BackendClient.swift:106-109 | a missing interpreter gives `executableNotFound` of its path |
| `BackendClient.LaunchesOnlyExisting` | macos/WhisperClipMenuBar/Sources/WhisperClipMenuBarApp/BackendClient.swift:106-119 | the result depends on the launcher only for existing executables, so no missing interpreter is ever launched |
| `BackendClient.Checked` | macos/WhisperClipMenuBar/Sources/WhisperClipMenuBarApp/BackendClient.swift:45-46 | a reply passes iff its status is "ok", and then unchanged. Otherwise it is `commandFailed` of `error`, or of the request's fallback text. Errors pass through |
| `BackendClient.ReportedMode` | macos/WhisperClipMenuBar/Sources/WhisperClipMenuBarApp/BackendClient.swift:77-79 | a reported raw value decodes to its mode. Any other value gives `.normal` |
| `BackendClient.RawValueRoundTripAll` | macos/WhisperClipMenuBar/Sources/WhisperClipMenuBarApp/SmartWorkflowMode.swift:3-6 | every mode's raw value decodes back to it |
| `BackendClient.FlagReply` | macos/WhisperClipMenuBar/Sources/WhisperClipMenuBarApp/BackendClient.swift:83-103 | after the status check, the flag is true iff the key holds `true` |
| `BackendClient.DecodeDefaults` | macos/WhisperClipMenuBar/Sources/WhisperClipMenuBarApp/BackendClient.swift:68-80 | a reply with no optional fields decodes to "", 0, false, false and `.normal` |
| `BackendClient.DecodeReadsFields` | macos/WhisperClipMenuBar/Sources/WhisperClipMenuBarApp/BackendClient.swift:68-80 | a reply carrying every field with its type decodes to exactly those values |
| `BackendClient.RecordStart` | macos/WhisperClipMenuBar/Sources/WhisperClipMenuBarApp/BackendClient.swift:38-49 | it runs `record --start` with the state dir, model and language, then applies the status check |
| `BackendClient.RecordStop` | macos/WhisperClipMenuBar/Sources/WhisperClipMenuBarApp/BackendClient.swift:51-81 | it runs `record --stop` with the refine flag and mode, applies the status check, and decodes the reply |
| `BackendClient.IsModelAvailableLocally` | macos/WhisperClipMenuBar/Sources/WhisperClipMenuBarApp/BackendClient.swift:83-92 | it runs `model --status`, applies the status check, and reads `is_available` |
| `BackendClient.EnsureModelAvailable` | macos/WhisperClipMenuBar/Sources/WhisperClipMenuBarApp/BackendClient.swift:94-103 | it runs `model --ensure`, applies the status check, and reads `downloaded` |
| `SmartWorkflowMode.FromRawValue` | macos/WhisperClipMenuBar/Sources/WhisperClipMenuBarApp/SmartWorkflowMode.swift:3-6 | `init(rawValue:)` yields a case exactly for that case's raw value |
| `SmartWorkflowMode.RawValueRoundTrip` | macos/WhisperClipMenuBar/Sources/WhisperClipMenuBarApp/SmartWorkflowMode.swift:3-6 | raw values round-trip and are distinct |
| `SmartWorkflowMode.UnknownRawValue` | macos/WhisperClipMenuBar/Sources/WhisperClipMenuBarApp/SmartWorkflowMode.swift:3-6 | any other string yields nil |
| `SmartWorkflowMode.AllCasesComplete` | macos/WhisperClipMenuBar/Sources/WhisperClipMenuBarApp/SmartWorkflowMode.swift:3 | `allCases` holds every case, once each |
| `SmartWorkflowMode.DisplayNames` | macos/WhisperClipMenuBar/Sources/WhisperClipMenuBarApp/SmartWorkflowMode.swift:8-17 | the names are Normal, Email Dictation and Work Chat, one per case, all distinct |
| `LLMBackendProvider.FromRawValue` | macos/WhisperClipMenuBar/Sources/WhisperClipMenuBarApp/LLMBackendProvider.swift:3-6 | yields a case exactly for that case's raw value |
| `LLMBackendProvider.ActionButtonTitle` | macos/WhisperClipMenuBar/Sources/WhisperClipMenuBarApp/LLMBackendProvider.swift:19-28 | nil iff the provider is the Azure placeholder |
| `LLMBackendProvider.RawValueRoundTrip` | macos/WhisperClipMenuBar/Sources/WhisperClipMenuBarApp/LLMBackendProvider.swift:3-6 | raw values round-trip and are distinct |
| `LLMBackendProvider.Names` | macos/WhisperClipMenuBar/Sources/WhisperClipMenuBarApp/LLMBackendProvider.swift:8-28 | display names are distinct; the button titles are "Codex Login" and "Set API Credentials" |
| `Recorder.ErrorPayload` | backend/stt_backend/recorder.py:52-58 | an error payload has status "error" and details |
| `Recorder.SessionRecordFields` | backend/stt_backend/recorder.py:86-95 | the saved record holds the new pid, audio path, model and language |
| `Recorder.AudioPayload` | backend/stt_backend/recorder.py:139-155 | an empty capture gives `empty_audio` as an error with details. A non-empty one gives ok with `recording` false. Both carry the audio path, model and language |
| `Recorder.AudioPathOf` | backend/stt_backend/recorder.py:122 | a missing `audio_path` reads as "." (`str(Path(""))`); any path read is non-empty |
| `Recorder.StartSpec` | backend/stt_backend/recorder.py:45-101 | start leaves the record alone unless it succeeds; a new record is the session record of the spawned process |
| `Recorder.StopSpec` | backend/stt_backend/recorder.py:104-155 | stop either keeps the record or clears it; it never writes one |
| `Recorder.StateDirectory.LoadState` | backend/stt_backend/recorder.py:19-23 | returns the stored record, if any |
| `Recorder.StateDirectory.SaveState` | backend/stt_backend/recorder.py:26-28 | the stored record becomes the payload |
| `Recorder.StateDirectory.ClearState` | backend/stt_backend/recorder.py:31-34 | no record is stored afterwards |
| `Recorder.StateDirectory.StartRecording` | backend/stt_backend/recorder.py:45-101 | result and new record are `StartSpec` of the old record |
| `Recorder.StateDirectory.StopRecording` | backend/stt_backend/recorder.py:104-155 | result and new record are `StopSpec` of the old record |
| `Recorder.StartRefusesLiveSession` | backend/stt_backend/recorder.py:52-58 | a stored session with a live pid gives `recording_already_running`, and the record is unchanged |
| `Recorder.StartRecordsSession` | backend/stt_backend/recorder.py:84-101 | with no session, or a dead one, start saves the new session's record. It returns ok with `recording` true and the same pid and audio path |
| `Recorder.StopWithoutSession` | backend/stt_backend/recorder.py:105-111 | with no session, stop gives `no_active_recording` and touches nothing |
| `Recorder.StopInvalidPid` | backend/stt_backend/recorder.py:113-120 | a pid that `int()` reads as ≤ 0 — missing (read as -1), an integer ≤ 0, or `false` — clears the record and gives `invalid_state` |
| `Recorder.StopClearsPastPidCheck` | backend/stt_backend/recorder.py:136-137 | the record survives a stop only when the stop ended before the pid check passed (no session, or a pid or audio path that raises); every other stop clears it |
| `Recorder.StopReportsRecording` | backend/stt_backend/recorder.py:139-155 | with a valid record, a stop gives `empty_audio` iff the file is missing or empty, else ok. The model and language come from the record |
| `Recorder.StartPayloadStatus` | backend/stt_backend/recorder.py:45-101 | every start payload has status ok or error, and every error carries details |
| `Recorder.StopPayloadStatus` | backend/stt_backend/recorder.py:104-155 | the same for every stop payload |
| `Recorder.StartThenStop` | backend/stt_backend/recorder.py:45-155 | a session started with a positive pid stops with its own audio path, model and language, and leaves no record |
| `Cli.AutoIsNormal` | backend/stt_backend/cli.py:58 | "auto" is already stripped and lower case |
| `Cli.NormalizeLanguage` | backend/stt_backend/cli.py:56-58 | "", "auto" and "none" (after strip and lower) map to "auto"; anything else maps to its stripped lower case |
| `Cli.NormalizeLanguageIdempotent` | backend/stt_backend/cli.py:56-58 | normalising twice is normalising once |
| `Cli.ToBoolFlag` | backend/stt_backend/cli.py:66-67 | of the two accepted values, exactly "true" is true |
| `Cli.ExceptionPayload` | backend/stt_backend/cli.py:188-197 | an escaping exception is reported with status "error" |
| `Cli.StopPayload` | backend/stt_backend/cli.py:95-105 | the stop payload has status "ok" |
| `Cli.ModelStatusPayload` | backend/stt_backend/cli.py:164-171 | the `model --status` payload has status "ok" |
| `Cli.ModelEnsurePayload` | backend/stt_backend/cli.py:175-183 | the `model --ensure` payload has status "ok" |
| `Cli.CompleteStop` | backend/stt_backend/cli.py:78-106 | the composed stop payload, when nothing raises, has status "ok" |
| `Cli.HandleStopSpec` | backend/stt_backend/cli.py:70-114 | the record after `_handle_stop` is the one the stop left, and it emits one payload |
| `Cli.Stdout.Emit` | backend/stt_backend/json_io.py:8-10 | appends exactly one payload to stdout |
| `Cli.EmitHandled` | backend/stt_backend/cli.py:141-142 | writes the payload a command settled on and returns its exit code, or writes nothing when an exception escaped |
| `Cli.HandleStop` | backend/stt_backend/cli.py:70-114 | the method writes, stores and returns what `HandleStopSpec` says |
| `Cli.RunMain` | backend/stt_backend/cli.py:117-197 | the method writes, stores and returns what `MainSpec` says |
| `Cli.Start` | backend/stt_backend/cli.py:133-142 | the start branch writes, stores and returns what `StartCommand` says |
| `Cli.StartCommandReports` | backend/stt_backend/cli.py:133-142 | a start emits one detailed payload, with code 0 iff it is ok |
| `Cli.HandleStopReports` | backend/stt_backend/cli.py:70-114 | the same for `_handle_stop` |
| `Cli.RecordReports` | backend/stt_backend/cli.py:131-144 | `record` emits one payload whose status is ok or error, with code 0 iff ok |
| `Cli.RunReports` | backend/stt_backend/cli.py:146-159 | the same for `run` |
| `Cli.ExitCodeMatchesStatus` | backend/stt_backend/cli.py:117-197 | every command except `_capture` emits exactly one payload, and the exit code is 0 iff its status is ok |
| `Cli.ToggleIsStopOrStart` | backend/stt_backend/cli.py:146-159 | `run --mode toggle` is `record --stop` when the session file exists, else `record --start` |
| `Cli.FailedStopPassesThrough` | backend/stt_backend/cli.py:73-76 | a non-ok stop result is emitted unchanged with exit code 1 |
| `Cli.UnsupportedCommandCases` | backend/stt_backend/cli.py:186-187 | `record` without a flag and `run` with another mode give `unsupported_command` with code 1, and touch nothing |
| `Cli.ParsedIsSupported` | backend/stt_backend/cli.py:16-53 | no command the parser accepts is reported as unsupported |
| `Cli.StartIsSupported` | backend/stt_backend/cli.py:133-142 | a start never emits the unsupported payload |
| `Cli.StopIsSupported` | backend/stt_backend/cli.py:70-114 | a stop never emits the unsupported payload |
| `Cli.DetailedIsNotUnsupported` | backend/stt_backend/cli.py:186 | the unsupported payload carries no details |
| `Cli.ExceptionIsNotUnsupported` | backend/stt_backend/cli.py:190-196 | an exception payload, which carries a trace, is not the unsupported one |
| `Cli.HandleStopOfSession` | backend/stt_backend/cli.py:78-106 | for a valid record, the stop payload carries the refined text, the latency, the audio path and the record's model and language. It also carries the mode as given and the refined flag, and exits 0 |
| `Cli.CompleteStopOf` | backend/stt_backend/cli.py:78-105 | model and language are taken from the stop result first, with the language normalised. `workflow_mode` echoes the mode and `text` is the refined text |
| `Cli.StartThenStop` | backend/stt_backend/cli.py:131-144 | `record --start` then `record --stop` transcribes the started session's audio with its model and normalised language, exits 0 and leaves no record |
| `Cli.StartFromNoSession` | backend/stt_backend/cli.py:133-142 | with no session, `record --start` stores the new session and exits 0 |
| `SmartWorkflow.ShouldRefineIff` | backend/stt_backend/smart_workflow.py:8-9 | refine iff enabled and the mode is "email" or "work_chat" |
| `SmartWorkflow.NormalNeverRefines` | backend/stt_backend/smart_workflow.py:8-9 | "normal" and "" are never refined |
| `SmartWorkflow.Query` | backend/stt_backend/smart_workflow.py:12-18 | the query is the template, a blank line, the glossary and a blank line (only when the glossary is non-empty), then "User draft:\n" and the draft |
| `SmartWorkflow.QueryInjective` | backend/stt_backend/smart_workflow.py:12-18 | equal queries (same template and glossary) have equal drafts, and conversely |
| `SmartWorkflow.QueryDeterminesDraft` | backend/stt_backend/smart_workflow.py:12-18 | two transcripts give the same query iff they strip to the same draft |
| `SmartWorkflow.ShippedQuery` | backend/stt_backend/smart_workflow.py:12-18 | with the shipped glossary the query has no glossary block |
| `SmartWorkflow.RefineTranscript` | backend/stt_backend/smart_workflow.py:21-31 | when refined, the text is non-empty and stripped; when not refined, it is the transcript; without refinement, the result is `(transcript, False)` |
| `SmartWorkflow.RefineOutcome` | backend/stt_backend/smart_workflow.py:25-31 | when refining, the hook's exception propagates. A None or blank reply gives `(transcript, False)`. Any other reply gives `(reply.strip(), True)` |
| `SmartWorkflow.NotRefiningIgnoresHook` | backend/stt_backend/smart_workflow.py:23-24 | without refinement the hook is never consulted: any two hooks give the same result |
| `PromptTemplates.SmartModesShape` | backend/stt_backend/prompt_templates.py:3-7 | `SMART_MODES` is ("normal", "email", "work_chat"), three distinct values with normal first |
| `PromptTemplates.TemplateKeys` | backend/stt_backend/prompt_templates.py:9-28 | the template keys are exactly {"email", "work_chat"}, a subset of the modes; "normal" has none |
| `UserGlossary.Kept` | backend/stt_backend/user_glossary.py:26 | kept entries are non-empty and stripped, and are no more than the entries |
| `UserGlossary.KeptAppend` | backend/stt_backend/user_glossary.py:26 | keeping preserves order and decides each entry on its own |
| `UserGlossary.KeptSingle` | backend/stt_backend/user_glossary.py:26 | an entry is kept, stripped, iff it is non-blank |
| `UserGlossary.BuildGlossaryContext` | backend/stt_backend/user_glossary.py:23-39 | the loop over the sections returns `Context` |
| `UserGlossary.LinesEmptyIff` | backend/stt_backend/user_glossary.py:25-34 | there are no lines iff no section keeps an entry |
| `UserGlossary.NoneKeptAppend` | backend/stt_backend/user_glossary.py:25-28 | emptiness is decided section by section |
| `UserGlossary.ContextEmptyIff` | backend/stt_backend/user_glossary.py:33-39 | the context is "" iff every section is empty after cleaning; otherwise it begins with the header |
| `UserGlossary.EmptySectionContributesNothing` | backend/stt_backend/user_glossary.py:27-28 | a section that keeps nothing adds nothing, wherever it stands |
| `UserGlossary.SectionLayout` | backend/stt_backend/user_glossary.py:29-31 | a section that keeps entries adds its title and then its bullets, after the earlier sections' lines |
| `UserGlossary.SectionTitleShape` | backend/stt_backend/user_glossary.py:29-30 | a title is the name with "_" turned into " ", title-cased, followed by ":" |
| `UserGlossary.ShippedGlossaryIsEmpty` | backend/stt_backend/user_glossary.py:6-20 | with the shipped glossary, the context is "" |
| `Text.StripLeft` | backend/stt_backend/user_glossary.py:26 | the longest suffix that does not start with whitespace |
| `Text.StripRight` | backend/stt_backend/user_glossary.py:26 | the longest prefix that does not end with whitespace |
| `Text.Strip` | backend/stt_backend/user_glossary.py:26 | the result is stripped, and empty iff the input is all whitespace |
| `Text.StrippedIsFixpoint` | backend/stt_backend/cli.py:57 | stripping a stripped string changes nothing |
| `Text.LowerOfLower` | backend/stt_backend/cli.py:57 | a string without capitals is its own lower case |
| `Text.LowerKeepsStripped` | backend/stt_backend/cli.py:57 | lower-casing keeps a string stripped and is idempotent |
| `Text.TitleFrom` | backend/stt_backend/user_glossary.py:29 | `title()` capitalises letters that start a word, lower-cases the others, and leaves non-letters alone |
| `Text.LineStart` | macos/WhisperClipMenuBar/Sources/WhisperClipMenuBarApp/BackendClient.swift:146-150 | the last line starts after the last newline |
| `Text.SplitLines` | macos/WhisperClipMenuBar/Sources/WhisperClipMenuBarApp/BackendClient.swift:146-150 | the split yields non-empty pieces without newlines |
| `Text.DropNewlines` | macos/WhisperClipMenuBar/Sources/WhisperClipMenuBarApp/BackendClient.swift:146-150 | the result has no newline |
| `Text.DropNewlinesAppend` | macos/WhisperClipMenuBar/Sources/WhisperClipMenuBarApp/BackendClient.swift:146-150 | dropping newlines distributes over a newline-free suffix |
| `Text.DropNewlinesOfNewlines` | macos/WhisperClipMenuBar/Sources/WhisperClipMenuBarApp/BackendClient.swift:146-150 | a text of newlines drops to "" |
| `Text.SplitLinesKeepsText` | macos/WhisperClipMenuBar/Sources/WhisperClipMenuBarApp/BackendClient.swift:146-150 | the pieces put back together are the text without its newlines |
| `Text.SplitLinesEmptyIff` | macos/WhisperClipMenuBar/Sources/WhisperClipMenuBarApp/BackendClient.swift:146-150 | there are no pieces iff the text is only newlines |
| `Text.LastLine` | macos/WhisperClipMenuBar/Sources/WhisperClipMenuBarApp/BackendClient.swift:146-151 | there is no last line iff the text is only newlines; a last line is non-empty and has no newline |
| `Text.LineStartAfter` | macos/WhisperClipMenuBar/Sources/WhisperClipMenuBarApp/BackendClient.swift:146-150 | after a newline-terminated prefix, the last line starts where the prefix ends |
| `Text.LastLineOfDecomposition` | macos/WhisperClipMenuBar/Sources/WhisperClipMenuBarApp/BackendClient.swift:146-151 | for complete lines, then a line, then newlines, the last line is that line |
| `Text.LastLineDecomposes` | macos/WhisperClipMenuBar/Sources/WhisperClipMenuBarApp/BackendClient.swift:146-151 | conversely, every text with a last line decomposes that way |
| `JsonLine.HexDigit` | backend/stt_backend/json_io.py:9 | a hex digit is never a line break |
| `JsonLine.UnicodeEscape` | backend/stt_backend/json_io.py:9 | a `\uxxxx` escape has no line break |
| `JsonLine.NatText` | backend/stt_backend/json_io.py:9 | a number's text is non-empty and made of digits |
| `JsonLine.Dumps` | backend/stt_backend/json_io.py:9 | a payload's text starts with "{" |
| `JsonLine.NoNewlineAppend` | backend/stt_backend/json_io.py:9 | two texts without line breaks join into one without |
| `JsonLine.PythonEscapeBreaksOnlyWide` | backend/stt_backend/json_io.py:9 | Python's escaping writes a line break for a character iff it is U+0085, U+2028 or U+2029 |
| `JsonLine.LineSafeEscapeIsLineSafe` | backend/stt_backend/json_io.py:9 | the corrected escaping never writes a line break |
| `JsonLine.EscapeAllLineSafe` | backend/stt_backend/json_io.py:9 | a line-safe escaping of a string has no line break |
| `JsonLine.EncodeStringLineSafe` | backend/stt_backend/json_io.py:9 | the same for a quoted string |
| `JsonLine.EncodeEntryLineSafe` | backend/stt_backend/json_io.py:9 | the same for a key and its value |
| `JsonLine.EncodeEntriesLineSafe` | backend/stt_backend/json_io.py:9 | the same for all entries |
| `JsonLine.DumpsLineSafe` | backend/stt_backend/json_io.py:9 | with a line-safe escaping, a payload is one line |
| `JsonLine.CorrectedLineIsWhole` | backend/stt_backend/json_io.py:8-10 | with the corrected escaping, whatever complete lines precede it, the client's last line is exactly the emitted payload |
| `JsonLine.AsWrittenSplitsLine` | backend/stt_backend/json_io.py:9 | as written, when a string field holds a wide line break and nothing written after that break holds one, whatever entries come before and after it, the client's last line is the text after the break up to the closing brace, and never the whole payload |
| `JsonLine.FixChangesOnlyWideBreaks` | backend/stt_backend/json_io.py:9 | on texts without wide line breaks, the corrected escaping writes what Python writes |
| `WireContract.ModesAgree` | macos/WhisperClipMenuBar/Sources/WhisperClipMenuBarApp/SmartWorkflowMode.swift:3-6 | the Swift raw values, in order, are `SMART_MODES`. `.normal` is `SMART_MODE_NORMAL`, which is the CLI default. A mode has a template iff it is not `.normal` |
| `WireContract.DefaultsAgree` | macos/WhisperClipMenuBar/Sources/WhisperClipMenuBarApp/AppState.swift:22-23 | the app's default model and language are the worker's defaults |
| `WireContract.StopFlagsReachWorker` | macos/WhisperClipMenuBar/Sources/WhisperClipMenuBarApp/BackendClient.swift:57-64 | the refine flag and mode the app sends are read back as sent, and refinement happens iff enabled and the mode is not `.normal` |
| `WireContract.ModeHasTemplate` | backend/stt_backend/prompt_templates.py:9-28 | a Swift mode's raw value has a template iff the mode is not `.normal` |
| `WireContract.StopPayloadDecodes` | macos/WhisperClipMenuBar/Sources/WhisperClipMenuBarApp/BackendClient.swift:68-80 | the worker's stop payload decodes to exactly its text, latency, download flag, refined flag and mode |
| `WireContract.ModelPayloadsDecode` | macos/WhisperClipMenuBar/Sources/WhisperClipMenuBarApp/BackendClient.swift:83-103 | the model payloads decode to the flag the worker reported |
| `WireContract.EmittedPayloadIsAccepted` | macos/WhisperClipMenuBar/Sources/WhisperClipMenuBarApp/BackendClient.swift:146-161 | every ok or error payload, emitted on its own line with its exit code, passes `runBackend` unchanged |
| `WireContract.WorkerErrorReachesClient` | macos/WhisperClipMenuBar/Sources/WhisperClipMenuBarApp/BackendClient.swift:45-46 | a worker error payload, or an exception payload, reaches the app as `commandFailed` of its code |
| `WireContract.RefusalsReachClient` | macos/WhisperClipMenuBar/Sources/WhisperClipMenuBarApp/BackendClient.swift:45-46 | `recording_already_running`, `no_active_recording` and `unsupported_command` reach the menu as those codes |
| `WireContract.CorrectedPayloadReachesClient` | backend/stt_backend/json_io.py:8-10 | with the corrected escaping, every flat ok or error payload reaches the app whole |

## Left out

- Process spawning, pipes, the stderr `readabilityHandler`, `DispatchQueue` and `waitUntilExit` (`BackendClient.swift:111-144`). These are OS I/O and concurrency. `runBackend` gets a launcher that returns the finished run: stdout, the stderr chunks and tail, and the exit status. Output that is not valid UTF-8 (decoded `?? ""`) is not modelled.
- JSON parsing (`JSONSerialization`) is an abstract `Parser`. `json.dumps` is modelled only for flat payloads in `JsonLine`, and floats, arrays and nested objects (`Json.Other`) are not encoded.
- `Json.ToInt`: `int()` of strings and floats is modelled as raising; only JSON integers and booleans convert.
- `Task.detached` and `MainActor` hops in `AppState.swift`. Each completion is a separate method (`RecordStartCompleted`, `RecordStopCompleted`), with no real concurrency.
- The clipboard, `AutoPaste.swift`, `NotificationClient.swift` and `NSSound.beep` are OS collaborators. They are recorded in the snapshot as the clipboard text, a paste count, a list of notifications and a cue count.
- `AppState.start()` (hot-key and notification registration) and `GlobalHotKeyManager.swift` are OS event wiring.
- `WhisperClipMenuBarApp.swift:12,15` uses properties `AppState` does not define. That file is not part of this model.
- `MenuBarApp.AppState.StopRecordingAndTranscribe`: `AppState.swift:99` calls `recordStop(model:language:)` without the refine flag and mode that `BackendClient.swift:51-56` requires. The model takes both as parameters of the toggle and the stop.
- `BackendClient.StateDirectory` models the path only. The `createDirectory` call of `stateDir` is file-system I/O.
- `BackendClient.RepoRootURL`: URL standardisation of the overrides and the working directory is not modelled. Paths are component sequences, and the parent of the root is the root.
- `Recorder.StartSpec`: the capture command line and `subprocess.Popen` are one `spawn` parameter. Its failure is an exception message.
- `Recorder.StopSpec`: the SIGTERM, the polling wait and the SIGKILL of `stop_recording` (`recorder.py:122-134`) are time- and signal-driven, and are not modelled. The model takes every stop past them. In the source, the SIGKILL at `recorder.py:134` is unguarded: if the process ends between the check at `:132` and that kill, `ProcessLookupError` escapes, the record stays and `main` emits an exception payload. The model does not cover that race, so `Recorder.StopClearsPastPidCheck` always clears past the pid check.
- `Recorder.ProcessAlive` is membership in an arbitrary set of live pids. As in the source, an `os.kill` permission error counts as a dead process. For a pid ≤ 0, `os.kill(pid, 0)` signals a process group or every process the user may signal, so in practice `process_alive(-1)` is true. Then a non-empty record without a pid makes `record --start` answer `recording_already_running` (`recorder.py:52-53`). The arbitrary set allows this, but the "pid -1 not alive" case of `Recorder.StartRecordsSession` does not arise in practice.
- A corrupt or non-object `recording_session.json` (a `json.load` error) is not modelled. A stored session is a decoded object.
- Path normalisation by `pathlib.Path` is modelled only for `Path("")` becoming ".".
- `Cli`: `argparse` parsing, and its error exit code 2, are not modelled. The `Parsed` predicate states what the parser lets through. `_state_dir`, `default_config` and the environment defaults of `WHISPER_MODEL` and `WHISPER_LANGUAGE` are not modelled. One state directory is modelled, with the built-in defaults.
- `Cli.Finish`: exception messages (`str(exc)`) and tracebacks are parameters, not Python's exact texts.
- Logging (`logging_utils.py`, `logger.info` and `logger.exception`) has no effect on results.
- `transcriber.py`, `user_llm_bridge.py` and the `_capture` loop are library and device calls. They are parameters (`Cli.Env`, `SmartWorkflow.QueryLlm`). `Cli.ExitCodeMatchesStatus` excludes `_capture` for this reason.
- `Text.Lower` and `Text.TitleFrom` do case mapping for ASCII letters only; non-ASCII letters are left as they are, unlike Python's `lower` and `title`.
- `BackendClient.ReportedMode` and the `Json` casts treat `as? Bool` and `as? Int` as strict. `NSNumber` bridging between booleans and integers is not modelled.

## Findings

| source | as written | input that shows it | evidently intended | confidence | as-written member | corrected member |
|---|---|---|---|---|---|---|
| backend/stt_backend/json_io.py:9 | `json.dumps(payload, ensure_ascii=False)` writes U+2028, U+2029 and U+0085 unescaped. The client splits stdout on Swift's `isNewline` (`BackendClient.swift:146-151`), which treats these as line breaks, so the last "line" is a fragment of the payload | a stop whose refined or transcribed `text` contains U+2028, with no later wide break: `text` is the second of the nine keys (`cli.py:95-105`), so the client's last line is the fragment after the break, `…", "latency_ms": …, "refined": …}`. That fragment is not JSON, so the app reports a `JSONSerialization` error instead of the transcript | one payload per line: the client's last line is the whole payload | not executed | `JsonLine.AsWrittenSplitsLine` | `JsonLine.CorrectedLineIsWhole` (and `WireContract.CorrectedPayloadReachesClient`) |
