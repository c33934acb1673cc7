/** The worker's recording session: an optional session record kept in the
    state directory, and the start and stop decisions made against it.
    Process liveness is a set of live pids; the capture process and the
    recorded file's size are given to the operations rather than observed. */
module Recorder {
  import opened Wrappers
  import opened Json

  const StateFileName: string := "recording_session.json"

  /** What an operation returns (a payload, or the message of the exception
      it raised) together with the session record it leaves behind. */
  datatype Step = Step(outcome: Result<Object, string>, stored: Option<Object>)

  /** The capture process that `subprocess.Popen` started, and the audio file
      name and start time the clock gave it. */
  datatype Spawn = Spawn(pid: int, audioPath: string, startedAt: Value)

  // Messages of the exceptions the two operations can raise.
  const PidNotAnInteger: string := "int() argument is not a number"
  const AudioPathNotAString: string := "audio_path is not a string"

  /** `{"status": "error", "error": code, "details": details}`. */
  function ErrorPayload(code: string, details: string): (p: Object)
    ensures "status" in p && p["status"] == Str("error") && "details" in p
  {
    map["error" := Str(code), "details" := Str(details), "status" := Str("error")]
  }

  const AlreadyRunning: Object :=
    ErrorPayload("recording_already_running", "A recording session is already in progress.")
  const NoActiveRecording: Object :=
    ErrorPayload("no_active_recording", "No active recording session found.")
  const InvalidState: Object :=
    ErrorPayload("invalid_state", "Stored recording state is invalid.")

  /** The record `start_recording` saves for a new session. */
  function SessionRecord(proc: Spawn, sampleRate: int, channels: int, model: string, language: string): Object {
    map[
      "pid" := Int(proc.pid), "audio_path" := Str(proc.audioPath),
      "sample_rate" := Int(sampleRate), "channels" := Int(channels),
      "model" := Str(model), "language" := Str(language),
      "started_at" := proc.startedAt]
  }

  /** A saved record reads back as the session it was saved for. */
  lemma SessionRecordFields(proc: Spawn, sampleRate: int, channels: int, model: string, language: string)
    ensures var record := SessionRecord(proc, sampleRate, channels, model, language);
      && record != map[]
      && StoredPid(record) == Some(proc.pid)
      && AudioPathOf(record) == Some(if proc.audioPath == "" then "." else proc.audioPath)
      && Get(record, "model", Null) == Str(model)
      && Get(record, "language", Null) == Str(language)
  {
  }

  /** The payload of a started session. */
  function StartedPayload(proc: Spawn): Object {
    map["recording" := Bool(true), "pid" := Int(proc.pid), "audio_path" := Str(proc.audioPath), "status" := Str("ok")]
  }

  /** The payload of a stop that got as far as the audio file: `empty_audio`
      when nothing was captured, success otherwise; both name the file and
      the model and language of the session. */
  function AudioPayload(captured: bool, audioPath: string, model: Value, language: Value): (p: Object)
    ensures "status" in p && p["status"] == if captured then Str("ok") else Str("error")
    ensures Get(p, "audio_path", Null) == Str(audioPath)
    ensures Get(p, "model", Null) == model && Get(p, "language", Null) == language
    ensures captured ==> Get(p, "recording", Null) == Bool(false)
    ensures !captured ==> "details" in p && Get(p, "error", Null) == Str("empty_audio")
  {
    if captured then
      map["recording" := Bool(false), "audio_path" := Str(audioPath), "model" := model, "language" := language,
          "status" := Str("ok")]
    else
      map["error" := Str("empty_audio"), "details" := Str("No audio captured."),
          "audio_path" := Str(audioPath), "model" := model, "language" := language, "status" := Str("error")]
  }

  /** `int(state.get("pid", -1))`; `None` when `int` raises. */
  function StoredPid(o: Object): Option<int> {
    ToInt(Get(o, "pid", Int(-1)))
  }

  /** `str(Path(state.get("audio_path", "")))`; `None` when `Path` raises on
      a value that is not a string. The empty path reads back as ".". */
  function AudioPathOf(o: Object): (r: Option<string>)
    ensures r.Some? ==> r.value != ""
    ensures "audio_path" !in o ==> r == Some(".")
  {
    match Get(o, "audio_path", Str(""))
    case Str(s) => Some(if s == "" then "." else s)
    case _ => None
  }

  /** A payload with status "ok", or with status "error" and details. */
  predicate Detailed(p: Object) {
    "status" in p && (p["status"] == Str("ok") || (p["status"] == Str("error") && "details" in p))
  }

  /** `process_alive(pid)`: signal 0 reaches a process. */
  predicate ProcessAlive(alive: set<int>, pid: int) {
    pid in alive
  }

  /** `start_recording` against the stored record `stored`. */
  function StartSpec(stored: Option<Object>, sampleRate: int, channels: int, model: string, language: string,
                     alive: set<int>, spawn: Result<Spawn, string>): (r: Step)
    ensures r.stored == stored || r.outcome.Success?
    ensures r.stored != stored ==>
      && r.stored.Some? && r.outcome.Success?
      && "pid" in r.stored.value && "audio_path" in r.stored.value
      && "status" in r.outcome.value && r.outcome.value["status"] == Str("ok")
      && "recording" in r.outcome.value && r.outcome.value["recording"] == Bool(true)
      && "pid" in r.outcome.value && r.outcome.value["pid"] == r.stored.value["pid"]
      && "audio_path" in r.outcome.value && r.outcome.value["audio_path"] == r.stored.value["audio_path"]
  {
    var busy :=
      if stored.Some? && TruthyObject(stored.value) then
        match StoredPid(stored.value)
        case None => Some(Step(Failure(PidNotAnInteger), stored))
        case Some(pid) => if ProcessAlive(alive, pid) then Some(Step(Success(AlreadyRunning), stored)) else None
      else None;
    if busy.Some? then busy.value
    else
      match spawn
      case Failure(e) => Step(Failure(e), stored)
      case Success(proc) =>
        Step(Success(StartedPayload(proc)), Some(SessionRecord(proc, sampleRate, channels, model, language)))
  }

  /** `stop_recording` against the stored record `stored`; `sizes` holds the
      size of each file that exists. The SIGTERM, the wait and the SIGKILL
      that end the capture process are not modelled: the stop is taken to
      get past them, so a SIGKILL that raises because the process ended
      just before it is not covered. */
  function StopSpec(stored: Option<Object>, sizes: map<string, nat>): (r: Step)
    ensures r.stored == stored || r.stored == None
  {
    if stored.None? || !TruthyObject(stored.value) then Step(Success(NoActiveRecording), stored)
    else
      var state := stored.value;
      match StoredPid(state)
      case None => Step(Failure(PidNotAnInteger), stored)
      case Some(pid) =>
        if pid <= 0 then Step(Success(InvalidState), None)
        else
          match AudioPathOf(state)
          case None => Step(Failure(AudioPathNotAString), stored)
          case Some(audioPath) =>
            var model := Get(state, "model", Null);
            var language := Get(state, "language", Null);
            var captured := audioPath in sizes && sizes[audioPath] > 0;
            Step(Success(AudioPayload(captured, audioPath, model, language)), None)
  }

  /** The state directory, holding at most one session record. */
  class StateDirectory {
    var session: Option<Object>

    constructor(initial: Option<Object>)
      ensures session == initial
    {
      session := initial;
    }

    /** `load_state`. */
    method LoadState() returns (s: Option<Object>)
      ensures s == session
    {
      s := session;
    }

    /** `save_state`. */
    method SaveState(payload: Object)
      modifies this
      ensures session == Some(payload)
    {
      session := Some(payload);
    }

    /** `clear_state`. */
    method ClearState()
      modifies this
      ensures session == None
    {
      session := None;
    }

    /** `start_recording`. */
    method StartRecording(sampleRate: int, channels: int, model: string, language: string,
                          alive: set<int>, spawn: Result<Spawn, string>) returns (r: Result<Object, string>)
      modifies this
      ensures Step(r, session) == StartSpec(old(session), sampleRate, channels, model, language, alive, spawn)
    {
      var existing := LoadState();
      if existing.Some? && TruthyObject(existing.value) {
        var pid := StoredPid(existing.value);
        if pid.None? {
          return Failure(PidNotAnInteger);
        }
        if ProcessAlive(alive, pid.value) {
          return Success(AlreadyRunning);
        }
      }
      if spawn.Failure? {
        return Failure(spawn.error);
      }
      var proc := spawn.value;
      SaveState(SessionRecord(proc, sampleRate, channels, model, language));
      r := Success(StartedPayload(proc));
    }

    /** `stop_recording`. */
    method StopRecording(sizes: map<string, nat>) returns (r: Result<Object, string>)
      modifies this
      ensures Step(r, session) == StopSpec(old(session), sizes)
    {
      var state := LoadState();
      if state.None? || !TruthyObject(state.value) {
        return Success(NoActiveRecording);
      }
      var pid := StoredPid(state.value);
      if pid.None? {
        return Failure(PidNotAnInteger);
      }
      if pid.value <= 0 {
        ClearState();
        return Success(InvalidState);
      }
      var audioPath := AudioPathOf(state.value);
      if audioPath.None? {
        return Failure(AudioPathNotAString);
      }
      ClearState();
      var model := Get(state.value, "model", Null);
      var language := Get(state.value, "language", Null);
      if audioPath.value !in sizes || sizes[audioPath.value] == 0 {
        return Success(AudioPayload(false, audioPath.value, model, language));
      }
      r := Success(AudioPayload(true, audioPath.value, model, language));
    }
  }

  // ---------------------------------------------------------------------
  // Properties of the session lifecycle
  // ---------------------------------------------------------------------

  /** A stored session whose pid is alive blocks a new one: the error is
      reported and the record is left as it was. */
  lemma StartRefusesLiveSession(stored: Option<Object>, sampleRate: int, channels: int, model: string, language: string,
                                alive: set<int>, spawn: Result<Spawn, string>)
    requires stored.Some? && stored.value != map[]
    requires StoredPid(stored.value).Some? && StoredPid(stored.value).value in alive
    ensures var r := StartSpec(stored, sampleRate, channels, model, language, alive, spawn);
      && r.stored == stored
      && r.outcome == Success(AlreadyRunning)
      && r.outcome.value["status"] == Str("error")
      && r.outcome.value["error"] == Str("recording_already_running")
  {
  }

  /** With no session, an empty one or a dead one, a started capture process
      is recorded with everything the stop will need, and reported. */
  lemma StartRecordsSession(stored: Option<Object>, sampleRate: int, channels: int, model: string, language: string,
                            alive: set<int>, proc: Spawn)
    requires stored.None? || stored.value == map[] || (StoredPid(stored.value).Some? && StoredPid(stored.value).value !in alive)
    ensures var r := StartSpec(stored, sampleRate, channels, model, language, alive, Success(proc));
      && r.stored.Some?
      && StoredPid(r.stored.value) == Some(proc.pid)
      && r.stored.value["audio_path"] == Str(proc.audioPath)
      && r.stored.value["model"] == Str(model) && r.stored.value["language"] == Str(language)
      && r.outcome.Success?
      && r.outcome.value["status"] == Str("ok") && r.outcome.value["recording"] == Bool(true)
      && r.outcome.value["pid"] == Int(proc.pid) && r.outcome.value["audio_path"] == Str(proc.audioPath)
  {
  }

  /** Without a session, a stop reports `no_active_recording` and touches nothing. */
  lemma StopWithoutSession(stored: Option<Object>, sizes: map<string, nat>)
    requires stored.None? || stored.value == map[]
    ensures StopSpec(stored, sizes) == Step(Success(NoActiveRecording), stored)
  {
  }

  /** A stored pid that `int()` reads as not positive clears the record and
      reports `invalid_state`: a missing pid (read as -1), an integer at most
      0, or `false`. */
  lemma StopInvalidPid(state: Object, sizes: map<string, nat>)
    requires state != map[]
    requires StoredPid(state).Some? && StoredPid(state).value <= 0
    ensures StopSpec(Some(state), sizes) == Step(Success(InvalidState), None)
  {
  }

  /** The record stays only where the stop stopped before its pid check
      passed: with no session, or with a pid or audio path that raises.
      Every other stop clears it. */
  lemma StopClearsPastPidCheck(stored: Option<Object>, sizes: map<string, nat>)
    ensures var r := StopSpec(stored, sizes);
      r.stored != None ==>
        && r.stored == stored
        && (!TruthyObject(stored.value) || StoredPid(stored.value).None? || AudioPathOf(stored.value).None?)
    ensures var r := StopSpec(stored, sizes);
      r.outcome.Success? && r.outcome.value != NoActiveRecording ==> r.stored == None
  {
  }

  /** A stop with a valid record reports either `empty_audio` (the file is
      missing or empty) or success, and both carry the recorded model and
      language and the audio path. */
  lemma StopReportsRecording(state: Object, sizes: map<string, nat>)
    requires state != map[]
    requires StoredPid(state).Some? && StoredPid(state).value > 0
    requires AudioPathOf(state).Some?
    ensures var r := StopSpec(Some(state), sizes); var path := AudioPathOf(state).value;
      && r.stored == None
      && r.outcome.Success?
      && Get(r.outcome.value, "audio_path", Null) == Str(path)
      && Get(r.outcome.value, "model", Null) == Get(state, "model", Null)
      && Get(r.outcome.value, "language", Null) == Get(state, "language", Null)
      && (Get(r.outcome.value, "status", Null) == Str("ok") <==> path in sizes && sizes[path] > 0)
      && (Get(r.outcome.value, "status", Null) != Str("ok") ==> Get(r.outcome.value, "error", Null) == Str("empty_audio"))
  {
  }

  /** Every payload a start returns has status "ok" or "error", and an error
      payload carries its details. */
  lemma StartPayloadStatus(stored: Option<Object>, sampleRate: int, channels: int, model: string, language: string,
                           alive: set<int>, spawn: Result<Spawn, string>)
    ensures var r := StartSpec(stored, sampleRate, channels, model, language, alive, spawn);
      r.outcome.Success? ==> Detailed(r.outcome.value)
  {
  }

  /** Every payload a stop returns has status "ok" or "error", and an error
      payload carries its details. */
  lemma StopPayloadStatus(stored: Option<Object>, sizes: map<string, nat>)
    ensures var r := StopSpec(stored, sizes);
      r.outcome.Success? ==> Detailed(r.outcome.value)
  {
  }

  /** A session started with a positive pid stops cleanly: the stop returns
      the model, language and audio path the start was given, whether or not
      audio was captured, and leaves no record, so the next start succeeds. */
  lemma StartThenStop(sampleRate: int, channels: int, model: string, language: string,
                       alive: set<int>, proc: Spawn, sizes: map<string, nat>, next: Spawn)
    requires proc.pid > 0 && proc.audioPath != ""
    ensures var started := StartSpec(None, sampleRate, channels, model, language, alive, Success(proc));
      var stopped := StopSpec(started.stored, sizes);
      && stopped.stored == None
      && stopped.outcome.Success?
      && Get(stopped.outcome.value, "model", Null) == Str(model)
      && Get(stopped.outcome.value, "language", Null) == Str(language)
      && Get(stopped.outcome.value, "audio_path", Null) == Str(proc.audioPath)
      && Get(StartSpec(stopped.stored, sampleRate, channels, model, language, alive, Success(next)).outcome.value, "status", Null) == Str("ok")
  {
    var record := SessionRecord(proc, sampleRate, channels, model, language);
    SessionRecordFields(proc, sampleRate, channels, model, language);
    StopReportsRecording(record, sizes);
  }
}
