/** The recording endpoints: an in-memory map from application session id to
    its active recording, kept beside the session store. Failures are the
    HTTP errors the handlers raise; anything else a handler's callees raise
    surfaces as a 500 after whatever state changes came first. */
module AudioRoutes {
  import opened Wrappers
  import opened Text
  import Sessions
  import Capture

  /** The routes' state: the active recordings, the session store, and the
      `pw-record` processes that failed starts left running, which no entry
      refers to and no route can stop. */
  datatype State = State(
    active: map<string, Capture.RecordingSession>,
    store: Sessions.Store,
    orphans: seq<Capture.RecordingProcess>)

  /** Every active recording writes `.wav` files, as every plan does; the
      stop handler relies on it to name the converted files. */
  ghost predicate Valid(st: State) {
    forall k :: k in st.active ==> Capture.AllWav(st.active[k].processes)
  }

  datatype HttpError = HttpError(status: int, detail: string)

  datatype StartRequest = StartRequest(deviceIds: seq<int>, sessionId: Option<string>)

  datatype StartResponse = StartResponse(sessionId: string, recordingId: string, message: string)

  /** What the handler's environment supplies: the data directory, fresh uuids
      for a new session and for the recording, the clock, the device listing
      and what the host does when the capture starts. */
  datatype StartEnv = StartEnv(
    dataDir: string,
    sessionUuid: string,
    recordingUuid: string,
    now: real,
    dump: Capture.PwDump,
    host: Capture.Host)

  /** The directory a session's recordings are written to. */
  function RecordingDir(dataDir: string, id: string): string {
    dataDir + "/recordings/" + id
  }

  function StartMessage(n: nat): string {
    "Recording started from " + NatToString(n) + " device(s)"
  }

  /** The application session a start targets: the requested one, which must
      exist, or a new one created with the default name. An empty id counts
      as none. */
  function TargetSession(store: Sessions.Store, req: StartRequest, env: StartEnv): (r: Result<(Sessions.Session, Sessions.Store), HttpError>)
    ensures req.sessionId.Some? && req.sessionId.value != "" ==>
              (r.Failure? <==> req.sessionId.value !in store) &&
              (r.Failure? ==> r.error == HttpError(404, "Session not found")) &&
              (r.Success? ==> r.value == (store[req.sessionId.value], store))
    ensures (req.sessionId.None? || req.sessionId.value == "") ==>
              r.Success? && r.value.0.name == Sessions.DefaultName && r.value.0.status == Sessions.Created &&
              Sessions.GetSession(r.value.1, r.value.0.id) == Some(r.value.0)
  {
    if req.sessionId.Some? && req.sessionId.value != "" then
      match Sessions.GetSession(store, req.sessionId.value)
      case None => Failure(HttpError(404, "Session not found"))
      case Some(s) => Success((s, store))
    else
      var (store1, s) := Sessions.CreateSession(store, Sessions.DefaultName, env.sessionUuid, env.now);
      Success((s, store1))
  }

  /** The targeted session of a well-keyed store is stored under its own id,
      and the store stays well keyed. */
  lemma TargetSessionKeyed(store: Sessions.Store, req: StartRequest, env: StartEnv)
    requires Sessions.WellKeyed(store)
    requires TargetSession(store, req, env).Success?
    ensures var (app, store1) := TargetSession(store, req, env).value;
            app.id in store1 && Sessions.WellKeyed(store1)
  {
    if !(req.sessionId.Some? && req.sessionId.value != "") {
      Sessions.CreateKeepsKeys(store, Sessions.DefaultName, env.sessionUuid, env.now);
    }
  }

  /** The capture a start launches for `app`. */
  function LaunchCapture(app: Sessions.Session, req: StartRequest, env: StartEnv): Result<Capture.RecordingSession, Capture.StartFailure> {
    Capture.StartRecording(req.deviceIds, env.dump, RecordingDir(env.dataDir, app.id), env.recordingUuid, env.host)
  }

  /** The part of a start after the session is known: start the capture,
      register it (replacing any entry for the session) and mark the session
      recording. A capture that raises is a 500; the processes it had already
      spawned become orphans. */
  function Launch(st: State, app: Sessions.Session, store: Sessions.Store,
                  req: StartRequest, env: StartEnv): (r: (Result<StartResponse, HttpError>, State))
    ensures r.0.Success? <==> LaunchCapture(app, req, env).Success?
    ensures r.0.Failure? ==>
              && r.0.error == HttpError(500, LaunchCapture(app, req, env).error.message)
              && r.1 == State(st.active, store, st.orphans + LaunchCapture(app, req, env).error.running)
    ensures Valid(st) ==> Valid(r.1)
    ensures r.0.Success? ==> r.1.orphans == st.orphans
    ensures r.0.Success? ==>
              && r.0.value.sessionId == app.id
              && app.id in r.1.active
              && r.1.active == st.active[app.id := r.1.active[app.id]]
              && r.1.active[app.id].isRecording
              && r.1.active[app.id].sessionId == r.0.value.recordingId
              && r.1.store == Sessions.SetStatus(store, app.id, Sessions.Recording, env.now).1
  {
    match LaunchCapture(app, req, env)
    case Failure(f) => (Failure(HttpError(500, f.message)), State(st.active, store, st.orphans + f.running))
    case Success(recording) =>
      var (_, store1) := Sessions.SetStatus(store, app.id, Sessions.Recording, env.now);
      (Success(StartResponse(app.id, recording.sessionId, StartMessage(|recording.processes|))),
       State(st.active[app.id := recording], store1, st.orphans))
  }

  /** `POST /api/audio/start`. A session created for the request stays
      created when the capture then fails. */
  function Start(st: State, req: StartRequest, env: StartEnv): (r: (Result<StartResponse, HttpError>, State))
    ensures req.deviceIds == [] ==> r == (Failure(HttpError(400, "No devices selected")), st)
    ensures req.deviceIds != [] && req.sessionId.Some? && req.sessionId.value != "" && req.sessionId.value !in st.store ==>
              r == (Failure(HttpError(404, "Session not found")), st)
    ensures req.deviceIds != [] && r.0.Failure? && r.0.error.status == 500 ==> r.1.active == st.active
    ensures req.deviceIds != [] && (req.sessionId.None? || req.sessionId.value == "") && r.0.Failure? ==>
              var (store1, created) := Sessions.CreateSession(st.store, Sessions.DefaultName, env.sessionUuid, env.now);
              r.1.store == store1 && Sessions.GetSession(r.1.store, created.id) == Some(created)
    ensures Valid(st) ==> Valid(r.1)
  {
    if req.deviceIds == [] then (Failure(HttpError(400, "No devices selected")), st)
    else
      match TargetSession(st.store, req, env)
      case Failure(e) => (Failure(e), st)
      case Success((app, store1)) => Launch(st, app, store1, req, env)
  }

  /** A start for an existing session whose second `pw-record` spawn raises
      answers 500 and registers nothing, while the first device's process keeps
      running as an orphan and the session keeps its status. */
  lemma PartialStartOrphans(st: State, req: StartRequest, env: StartEnv)
    requires req.deviceIds != [] && req.sessionId.Some? && req.sessionId.value in st.store
    requires req.sessionId.value != ""
    requires env.host.mkdirError.None? && Capture.ListDevices(env.dump).Success?
    ensures var (r, st1) := Start(st, req, env);
            var plan := Capture.PlanProcesses(req.deviceIds, Capture.ListDevices(env.dump).value,
                                              RecordingDir(env.dataDir, st.store[req.sessionId.value].id),
                                              Sessions.ShortId(env.recordingUuid));
            |plan| >= 2 && env.host.spawnError(0).None? && env.host.spawnError(1).Some? ==>
              && r.Failure? && r.error.status == 500
              && st1.active == st.active && st1.store == st.store
              && st1.orphans == st.orphans + [plan[0]]
  {
    var app := st.store[req.sessionId.value];
    Capture.PartialStartLeavesProcess(req.deviceIds, env.dump, RecordingDir(env.dataDir, app.id), env.recordingUuid, env.host);
  }

  /** After a successful start the session has an active, recording entry
      whose id the response reports, the session is marked recording, and
      every other entry is untouched. */
  lemma StartRegisters(st: State, req: StartRequest, env: StartEnv)
    requires Sessions.WellKeyed(st.store)
    requires Start(st, req, env).0.Success?
    ensures var (r, st1) := Start(st, req, env);
            var id := r.value.sessionId;
            && id in st1.active && st1.active[id].isRecording
            && st1.active[id].sessionId == r.value.recordingId
            && Sessions.GetSession(st1.store, id).Some?
            && Sessions.GetSession(st1.store, id).value.status == Sessions.Recording
            && (forall k :: k in st.active && k != id ==> k in st1.active && st1.active[k] == st.active[k])
  {
    var (app, store1) := TargetSession(st.store, req, env).value;
    TargetSessionKeyed(st.store, req, env);
    Sessions.ModifyKeepsKeys(store1, app.id, (s: Sessions.Session) => s.(status := Sessions.Recording), env.now);
  }

  /** A start for a session that already has an entry replaces it without
      stopping the earlier recording. */
  lemma StartOverwritesActive(st: State, req: StartRequest, env: StartEnv)
    requires req.deviceIds != [] && req.sessionId.Some? && req.sessionId.value != "" && req.sessionId.value in st.active
    requires Sessions.WellKeyed(st.store) && req.sessionId.value in st.store
    requires LaunchCapture(st.store[req.sessionId.value], req, env).Success?
    ensures var (r, st1) := Start(st, req, env);
            r.Success? && r.value.sessionId == req.sessionId.value &&
            st1.active.Keys == st.active.Keys &&
            st1.active[req.sessionId.value].sessionId == r.value.recordingId
  {
    var sid := req.sessionId.value;
    var t := TargetSession(st.store, req, env);
    assert t == Success((st.store[sid], st.store));
    assert st.store[sid].id == sid;
    var l := Launch(st, st.store[sid], st.store, req, env);
    assert Start(st, req, env) == l;
    assert l.1.active == st.active[sid := l.1.active[sid]];
  }

  datatype StopResponse = StopResponse(
    sessionId: string,
    recordingId: string,
    outputFile: string,
    individualFiles: seq<string>,
    message: string)

  /** The stop handler's environment: the file probe for the recordings, the
      mixer (which may raise), the existence test for the mixed file and the
      clock. */
  datatype StopEnv = StopEnv(
    probe: string -> Capture.OutputFile,
    mix: (seq<string>, string) -> Result<string, string>,
    fileExists: string -> bool,
    now: real)

  function StopMessage(n: nat): string {
    "Recording stopped. " + NatToString(n) + " file(s) captured."
  }

  /** The audio file recorded on the session: the mixed file when it exists,
      and the previous one otherwise. */
  function AudioAfterStop(store: Sessions.Store, id: string, outputFile: string, now: real): Sessions.Store {
    if outputFile != "" then Sessions.SetAudioFile(store, id, outputFile, now).1 else store
  }

  /** `POST /api/audio/stop/{session_id}`. */
  function Stop(st: State, id: string, env: StopEnv): (r: (Result<StopResponse, HttpError>, State))
    requires Valid(st)
    ensures Valid(r.1) && r.1.orphans == st.orphans
    ensures id !in st.active ==> r == (Failure(HttpError(404, "No active recording for this session")), st)
    ensures id in st.active && !st.active[id].isRecording ==> r == (Failure(HttpError(400, "Session is not recording")), st)
    ensures r.0.Success? ==> id !in r.1.active && r.1.active == st.active - {id}
    ensures r.0.Success? ==> r.0.value.sessionId == id && r.0.value.recordingId == st.active[id].sessionId
    ensures r.0.Success? ==>
              && Capture.StopRecording(st.active[id], env.probe).0.Success?
              && r.0.value.individualFiles == Capture.StopRecording(st.active[id], env.probe).0.value
              && r.0.value.message == StopMessage(|r.0.value.individualFiles|)
  {
    if id !in st.active then (Failure(HttpError(404, "No active recording for this session")), st)
    else
      var recording := st.active[id];
      if !recording.isRecording then (Failure(HttpError(400, "Session is not recording")), st)
      else
        var (stopped, recording1) := Capture.StopRecording(recording, env.probe);
        var active1 := st.active[id := recording1];
        match stopped
        case Failure(e) => (Failure(HttpError(500, e)), st.(active := active1))
        case Success(files) =>
          var mixedPath := recording.outputDir + "/" + recording.sessionId + "_mixed.ogg";
          var mixed := if files != [] then env.mix(files, mixedPath) else Success(mixedPath);
          match mixed
          case Failure(e) => (Failure(HttpError(500, e)), st.(active := active1))
          case Success(path) =>
            var active2 := st.active - {id};
            var outputFile := if env.fileExists(path) then path else "";
            var store1 := AudioAfterStop(st.store, id, outputFile, env.now);
            var (_, store2) := Sessions.SetStatus(store1, id, Sessions.Processing, env.now);
            (Success(StopResponse(id, recording.sessionId, outputFile, files, StopMessage(|files|))),
             State(active2, store2, st.orphans))
  }

  /** A successful stop moves the session to processing and records the mixed
      file exactly when it exists; a second stop is refused with 404. */
  lemma StopThenStopAgain(st: State, id: string, env: StopEnv)
    requires Valid(st)
    requires Sessions.WellKeyed(st.store) && id in st.store
    requires Stop(st, id, env).0.Success?
    ensures var (r, st1) := Stop(st, id, env);
            && Sessions.GetSession(st1.store, id).value.status == Sessions.Processing
            && (r.value.outputFile != "" ==> Sessions.GetSession(st1.store, id).value.audioFile == Some(r.value.outputFile))
            && (r.value.outputFile == "" ==> Sessions.GetSession(st1.store, id).value.audioFile == st.store[id].audioFile)
            && Stop(st1, id, env).0 == Failure(HttpError(404, "No active recording for this session"))
  {
  }

  datatype StatusReply = StatusReply(sessionId: string, isRecording: bool, exists_: bool, deviceCount: Option<nat>)

  /** `GET /api/audio/status/{session_id}`. */
  function Status(st: State, id: string): (r: StatusReply)
    ensures id !in st.active ==> r == StatusReply(id, false, false, None)
    ensures id in st.active ==> r.exists_ && r.isRecording == st.active[id].isRecording &&
                                r.deviceCount == Some(|st.active[id].processes|)
  {
    if id !in st.active then StatusReply(id, false, false, None)
    else
      var rec := st.active[id];
      StatusReply(id, rec.isRecording, true, Some(|rec.processes|))
  }
}
