/** The menu-bar app's status machine: what a hot-key toggle, the copy
    command and the completions of the worker requests do to the published
    status, status text, last transcription and last error. The OS
    collaborators (clipboard, auto-paste, notifications, sound cues) and the
    requests handed to the background tasks are kept as plain records of what
    the app asked for, so that each step's effects can be stated. */
module MenuBarApp {
  import opened Wrappers
  import opened Json
  import opened SmartWorkflowMode
  import opened BackendClient

  datatype Status = Idle | Recording | Transcribing | Copied | Failed

  /** `statusIconName`: the SF Symbol shown in the menu bar. */
  function StatusIconName(s: Status): string {
    match s
    case Idle => "mic"
    case Recording => "waveform.circle.fill"
    case Transcribing => "hourglass.circle.fill"
    case Copied => "checkmark.circle.fill"
    case Failed => "xmark.circle.fill"
  }

  /** Each status has an icon of its own. */
  lemma StatusIconNamesDistinct(s: Status, t: Status)
    ensures StatusIconName(s) == StatusIconName(t) <==> s == t
  {
  }

  const IdleText: string := "Idle"
  const RecordingText: string := "Recording\U{2026}"
  const TranscribingText: string := "Transcribing\U{2026}"
  const CopiedText: string := "Copied \U{2705}"
  const FailedText: string := "Failed \U{274C}"

  /** The status text each status is shown with. */
  function StatusText(s: Status): string {
    match s
    case Idle => IdleText
    case Recording => RecordingText
    case Transcribing => TranscribingText
    case Copied => CopiedText
    case Failed => FailedText
  }

  /** The user's stored preferences (`@AppStorage`). */
  datatype Settings = Settings(autoPasteAfterTranscription: bool, whisperModel: string, whisperLanguage: string, soundCuesEnabled: bool)

  const DefaultSettings: Settings := Settings(false, "small", "auto", true)

  /** A request handed to a background task, with the values it captured. */
  datatype Request =
    | StartRequest(model: string, language: string)
    | StopRequest(model: string, language: string, autoPaste: bool, smartRefineEnabled: bool, mode: Mode)

  datatype Notification = Notification(title: string, body: string)

  /** Everything one step can change: the published fields, and the record of
      what the app asked its collaborators to do. */
  datatype Snapshot = Snapshot(
    status: Status,
    statusText: string,
    lastTranscription: string,
    lastError: string,
    settings: Settings,
    clipboard: string,
    pastes: nat,
    cues: nat,
    notifications: seq<Notification>,
    requests: seq<Request>)

  const Initial: Snapshot := Snapshot(Idle, IdleText, "", "", DefaultSettings, "", 0, 0, [], [])

  // ---------------------------------------------------------------------
  // The steps, as functions of the state before them
  // ---------------------------------------------------------------------

  /** `playCueIfNeeded`: a beep, when cues are on. */
  function PlayCue(s: Snapshot): Snapshot {
    if s.settings.soundCuesEnabled then s.(cues := s.cues + 1) else s
  }

  /** `startRecording`, up to handing the start request to a task. */
  function StartRecordingSpec(s: Snapshot): Snapshot {
    var s1 := PlayCue(s.(status := Recording, statusText := RecordingText, lastError := ""));
    s1.(requests := s1.requests + [StartRequest(s.settings.whisperModel, s.settings.whisperLanguage)])
  }

  /** `stopRecordingAndTranscribe`, up to handing the stop request to a task. */
  function StopRecordingSpec(s: Snapshot, smartRefineEnabled: bool, mode: Mode): Snapshot {
    var s1 := PlayCue(s.(status := Transcribing, statusText := TranscribingText));
    var request := StopRequest(s.settings.whisperModel, s.settings.whisperLanguage,
      s.settings.autoPasteAfterTranscription, smartRefineEnabled, mode);
    s1.(requests := s1.requests + [request])
  }

  /** `toggleRecording`. */
  function ToggleSpec(s: Snapshot, smartRefineEnabled: bool, mode: Mode): Snapshot {
    match s.status
    case Idle => StartRecordingSpec(s)
    case Copied => StartRecordingSpec(s)
    case Failed => StartRecordingSpec(s)
    case Recording => StopRecordingSpec(s, smartRefineEnabled, mode)
    case Transcribing => s
  }

  /** `copyLastTranscription`. */
  function CopyLastSpec(s: Snapshot): Snapshot {
    if s.lastTranscription == "" then s
    else s.(clipboard := s.lastTranscription, status := Copied, statusText := CopiedText)
  }

  const FailureTitle: string := "Whisper Clip Failed"
  const SuccessTitle: string := "Whisper Clip"
  const SuccessBody: string := "Transcription copied to clipboard"

  /** `applyFailure`. */
  function ApplyFailureSpec(s: Snapshot, message: string): Snapshot {
    s.(lastError := message, status := Failed, statusText := FailedText,
       notifications := s.notifications + [Notification(FailureTitle, message)])
  }

  /** The main-actor part of a successful stop. */
  function StopSucceededSpec(s: Snapshot, result: TranscriptionResult, autoPaste: bool): Snapshot {
    var s1 := s.(lastTranscription := result.text, clipboard := result.text,
                 pastes := if autoPaste then s.pastes + 1 else s.pastes,
                 status := Copied, statusText := CopiedText,
                 notifications := s.notifications + [Notification(SuccessTitle, SuccessBody)]);
    PlayCue(s1)
  }

  /** The start task's completion: only a failure comes back to the app. */
  function StartCompletedSpec(s: Snapshot, r: Result<Object, ClientError>): Snapshot {
    match r
    case Success(_) => s
    case Failure(e) => ApplyFailureSpec(s, LocalizedDescription(e))
  }

  /** The stop task's completion, with the auto-paste choice it captured. */
  function StopCompletedSpec(s: Snapshot, r: Result<TranscriptionResult, ClientError>, autoPaste: bool): Snapshot {
    match r
    case Success(result) => StopSucceededSpec(s, result, autoPaste)
    case Failure(e) => ApplyFailureSpec(s, LocalizedDescription(e))
  }

  /** Anything that can happen to the app, in the order it is handled on the
      main actor. */
  datatype Event =
    | Toggle(smartRefineEnabled: bool, mode: Mode)
    | CopyLast
    | StartCompleted(startResult: Result<Object, ClientError>)
    | StopCompleted(stopResult: Result<TranscriptionResult, ClientError>, autoPaste: bool)

  function Apply(s: Snapshot, e: Event): Snapshot {
    match e
    case Toggle(smartRefineEnabled, mode) => ToggleSpec(s, smartRefineEnabled, mode)
    case CopyLast => CopyLastSpec(s)
    case StartCompleted(r) => StartCompletedSpec(s, r)
    case StopCompleted(r, autoPaste) => StopCompletedSpec(s, r, autoPaste)
  }

  function ApplyAll(s: Snapshot, events: seq<Event>): Snapshot
    decreases |events|
  {
    if events == [] then s else Apply(ApplyAll(s, events[..|events| - 1]), events[|events| - 1])
  }

  // ---------------------------------------------------------------------
  // What each step promises
  // ---------------------------------------------------------------------

  /** Toggling at rest starts a recording: status and text say so, the last
      error is cleared, and one start request with the current model and
      language is handed off; the transcription is kept. */
  lemma ToggleAtRestStarts(s: Snapshot, smartRefineEnabled: bool, mode: Mode)
    requires s.status == Idle || s.status == Copied || s.status == Failed
    ensures var t := ToggleSpec(s, smartRefineEnabled, mode);
      && t.status == Recording && t.statusText == RecordingText && t.lastError == ""
      && t.lastTranscription == s.lastTranscription && t.clipboard == s.clipboard
      && t.requests == s.requests + [StartRequest(s.settings.whisperModel, s.settings.whisperLanguage)]
      && t.notifications == s.notifications
  {
  }

  /** Toggling while recording stops it: the app shows it is transcribing and
      hands off one stop request carrying the refinement choice; the last
      error and the transcription are kept. */
  lemma ToggleWhileRecordingStops(s: Snapshot, smartRefineEnabled: bool, mode: Mode)
    requires s.status == Recording
    ensures var t := ToggleSpec(s, smartRefineEnabled, mode);
      && t.status == Transcribing && t.statusText == TranscribingText
      && t.lastError == s.lastError && t.lastTranscription == s.lastTranscription
      && t.requests == s.requests + [StopRequest(s.settings.whisperModel, s.settings.whisperLanguage,
           s.settings.autoPasteAfterTranscription, smartRefineEnabled, mode)]
  {
  }

  /** A toggle while transcribing changes nothing, so a double toggle from
      recording asks for exactly one stop. */
  lemma ToggleWhileTranscribingIsIgnored(s: Snapshot, smartRefineEnabled: bool, mode: Mode, r2: bool, m2: Mode)
    ensures s.status == Transcribing ==> ToggleSpec(s, smartRefineEnabled, mode) == s
    ensures s.status == Recording ==>
      ToggleSpec(ToggleSpec(s, smartRefineEnabled, mode), r2, m2) == ToggleSpec(s, smartRefineEnabled, mode)
  {
  }

  /** A successful stop puts the text in the clipboard and the last
      transcription and shows it as copied; the last error stays. */
  lemma StopSuccessCopies(s: Snapshot, result: TranscriptionResult, autoPaste: bool)
    ensures var t := StopCompletedSpec(s, Success(result), autoPaste);
      && t.lastTranscription == result.text && t.clipboard == result.text
      && t.status == Copied && t.statusText == CopiedText && t.lastError == s.lastError
      && t.pastes == (if autoPaste then s.pastes + 1 else s.pastes)
      && t.notifications == s.notifications + [Notification(SuccessTitle, SuccessBody)]
  {
  }

  /** Any failure, from any status, is shown as failed with its message as the
      last error, and announced; the transcription and the clipboard stay. */
  lemma FailureFromAnyStatus(s: Snapshot, e: ClientError, autoPaste: bool)
    ensures var msg := LocalizedDescription(e);
      forall t <- {StartCompletedSpec(s, Failure(e)), StopCompletedSpec(s, Failure(e), autoPaste)} ::
        && t.status == Failed && t.statusText == FailedText && t.lastError == msg
        && t.lastTranscription == s.lastTranscription && t.clipboard == s.clipboard
        && t.notifications == s.notifications + [Notification(FailureTitle, msg)]
        && t.requests == s.requests
  {
  }

  /** A start that succeeds leaves the app as the toggle left it. */
  lemma StartSuccessChangesNothing(s: Snapshot, payload: Object)
    ensures StartCompletedSpec(s, Success(payload)) == s
  {
  }

  /** Copying does nothing without a transcription; with one, it copies it
      and shows it as copied from any status, recording and transcribing
      included. */
  lemma CopyLastCases(s: Snapshot)
    ensures s.lastTranscription == "" ==> CopyLastSpec(s) == s
    ensures s.lastTranscription != "" ==>
      CopyLastSpec(s) == s.(clipboard := s.lastTranscription, status := Copied, statusText := CopiedText)
  {
  }

  /** No step beeps when sound cues are off, and none beeps more than once. */
  lemma CuesOnlyWhenEnabled(s: Snapshot, e: Event)
    ensures !s.settings.soundCuesEnabled ==> Apply(s, e).cues == s.cues
    ensures Apply(s, e).cues <= s.cues + 1
    ensures Apply(s, e).settings == s.settings
  {
  }

  /** Only a successful stop replaces the last transcription. */
  lemma TranscriptionChangesOnlyOnStop(s: Snapshot, e: Event)
    requires Apply(s, e).lastTranscription != s.lastTranscription
    ensures e.StopCompleted? && e.stopResult.Success?
    ensures Apply(s, e).lastTranscription == e.stopResult.value.text
  {
  }

  /** The invariant the app keeps: the status text always matches the
      status, and while the app shows "copied" the clipboard holds its last
      transcription (as far as the app's own writes go). */
  predicate Consistent(s: Snapshot) {
    && s.statusText == StatusText(s.status)
    && (s.status == Copied ==> s.clipboard == s.lastTranscription)
  }

  lemma InitialIsConsistent()
    ensures Consistent(Initial)
    ensures StatusIconName(Initial.status) == "mic"
  {
  }

  lemma ApplyKeepsConsistent(s: Snapshot, e: Event)
    requires Consistent(s)
    ensures Consistent(Apply(s, e))
  {
  }

  lemma {:induction false} ApplyAllKeepsConsistent(s: Snapshot, events: seq<Event>)
    requires Consistent(s)
    ensures Consistent(ApplyAll(s, events))
    decreases |events|
  {
    if events != [] {
      ApplyAllKeepsConsistent(s, events[..|events| - 1]);
      ApplyKeepsConsistent(ApplyAll(s, events[..|events| - 1]), events[|events| - 1]);
    }
  }

  // ---------------------------------------------------------------------
  // The observable object
  // ---------------------------------------------------------------------

  class AppState {
    var status: Status
    var statusText: string
    var lastTranscription: string
    var lastError: string
    var settings: Settings
    /** The clipboard's contents as last written by the app. */
    var clipboard: string
    /** Auto-paste keystrokes sent, beeps played, notifications posted. */
    var pastes: nat
    var cues: nat
    var notifications: seq<Notification>
    /** Requests handed to background tasks, oldest first. */
    var requests: seq<Request>

    function State(): Snapshot
      reads this
    {
      Snapshot(status, statusText, lastTranscription, lastError, settings, clipboard, pastes, cues, notifications, requests)
    }

    constructor ()
      ensures State() == Initial
    {
      status := Idle;
      statusText := IdleText;
      lastTranscription := "";
      lastError := "";
      settings := DefaultSettings;
      clipboard := "";
      pastes := 0;
      cues := 0;
      notifications := [];
      requests := [];
    }

    function IconName(): string
      reads this
    {
      StatusIconName(status)
    }

    method PlayCueIfNeeded()
      modifies this`cues
      ensures State() == PlayCue(old(State()))
    {
      if !settings.soundCuesEnabled {
        return;
      }
      cues := cues + 1;
    }

    method ToggleRecording(smartRefineEnabled: bool, mode: Mode)
      modifies this
      ensures State() == ToggleSpec(old(State()), smartRefineEnabled, mode)
    {
      match status {
        case Idle => StartRecording();
        case Copied => StartRecording();
        case Failed => StartRecording();
        case Recording => StopRecordingAndTranscribe(smartRefineEnabled, mode);
        case Transcribing =>
      }
    }

    method CopyLastTranscription()
      modifies this`clipboard, this`status, this`statusText
      ensures State() == CopyLastSpec(old(State()))
    {
      if lastTranscription == "" {
        return;
      }
      clipboard := lastTranscription;
      status := Copied;
      statusText := CopiedText;
    }

    method StartRecording()
      modifies this`status, this`statusText, this`lastError, this`cues, this`requests
      ensures State() == StartRecordingSpec(old(State()))
    {
      status := Recording;
      statusText := RecordingText;
      lastError := "";
      PlayCueIfNeeded();
      var model := settings.whisperModel;
      var language := settings.whisperLanguage;
      requests := requests + [StartRequest(model, language)];
    }

    method StopRecordingAndTranscribe(smartRefineEnabled: bool, mode: Mode)
      modifies this`status, this`statusText, this`cues, this`requests
      ensures State() == StopRecordingSpec(old(State()), smartRefineEnabled, mode)
    {
      status := Transcribing;
      statusText := TranscribingText;
      PlayCueIfNeeded();
      var model := settings.whisperModel;
      var language := settings.whisperLanguage;
      var autoPaste := settings.autoPasteAfterTranscription;
      requests := requests + [StopRequest(model, language, autoPaste, smartRefineEnabled, mode)];
    }

    method ApplyFailure(message: string)
      modifies this`lastError, this`status, this`statusText, this`notifications
      ensures State() == ApplyFailureSpec(old(State()), message)
    {
      lastError := message;
      status := Failed;
      statusText := FailedText;
      notifications := notifications + [Notification(FailureTitle, message)];
    }

    /** The start task's `catch`, run on the main actor. */
    method RecordStartCompleted(r: Result<Object, ClientError>)
      modifies this`lastError, this`status, this`statusText, this`notifications
      ensures State() == StartCompletedSpec(old(State()), r)
    {
      if r.Failure? {
        ApplyFailure(LocalizedDescription(r.error));
      }
    }

    /** The stop task's completion, run on the main actor. */
    method RecordStopCompleted(r: Result<TranscriptionResult, ClientError>, autoPaste: bool)
      modifies this
      ensures State() == StopCompletedSpec(old(State()), r, autoPaste)
    {
      if r.Failure? {
        ApplyFailure(LocalizedDescription(r.error));
        return;
      }
      var result := r.value;
      lastTranscription := result.text;
      clipboard := result.text;
      if autoPaste {
        pastes := pastes + 1;
      }
      status := Copied;
      statusText := CopiedText;
      notifications := notifications + [Notification(SuccessTitle, SuccessBody)];
      PlayCueIfNeeded();
    }
  }
}
