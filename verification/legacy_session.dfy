/** The legacy recording session: a status string driven by start, stop and
    processing, the audio capture and transcriber reached through their
    observable outcomes, and the storage dictionary it is saved as. */
module LegacySession {
  import opened Wrappers
  import opened Segments
  import LegacyModels

  const Created: string := "created"
  const Recording: string := "recording"
  const Processing: string := "processing"
  const Completed: string := "completed"
  const Error: string := "error"

  /** A session's persistent fields. `createdAt` is the ISO text the creation
      time is stored as. */
  datatype Session = Session(
    sessionId: string,
    createdAt: string,
    status: string,
    model: Option<string>,
    deviceIds: seq<string>,
    recordingFile: Option<string>,
    transcriptFile: Option<string>,
    transcript: seq<Segment>,
    summary: string,
    isRecording: bool)

  /** The constructor: an absent or empty id is replaced by `freshId` (a new
      uuid), and everything else starts empty. */
  function NewSession(id: Option<string>, freshId: string, now: string): (s: Session)
    ensures s.sessionId == (if id.Some? && id.value != "" then id.value else freshId)
    ensures s.status == Created && !s.isRecording
    ensures s.model.None? && s.deviceIds == [] && s.recordingFile.None? && s.transcriptFile.None?
    ensures s.transcript == [] && s.summary == ""
  {
    var sid := if id.Some? && id.value != "" then id.value else freshId;
    Session(sid, now, Created, None, [], None, None, [], "", false)
  }

  /** The response dictionary of `start_recording` and `stop_recording`. */
  datatype Reply = Reply(success: bool, error: Option<string>, recordingFile: Option<Option<string>>)

  const AlreadyRecording: string := "Already recording"
  const NotRecording: string := "Not recording"

  /** What the audio capture did when asked to start: the file it will write,
      or the message of the exception it raised. */
  datatype CaptureStart = CaptureStarted(outputFile: Option<string>) | CaptureStartFailed(message: string)

  /** `start_recording`. The device list and model are stored before the
      capture is started, so they stay overwritten when it fails. */
  function StartRecording(s: Session, deviceIds: seq<string>, model: Option<string>, capture: CaptureStart): (r: (Reply, Session))
    ensures s.isRecording ==> r == (Reply(false, Some(AlreadyRecording), None), s)
    ensures !s.isRecording && capture.CaptureStarted? ==>
              && r.0 == Reply(true, None, None)
              && r.1 == s.(deviceIds := deviceIds, model := model, isRecording := true,
                           status := Recording, recordingFile := capture.outputFile)
    ensures !s.isRecording && capture.CaptureStartFailed? ==>
              && r.0 == Reply(false, Some(capture.message), None)
              && r.1 == s.(deviceIds := deviceIds, model := model, status := Error)
              && !r.1.isRecording
  {
    if s.isRecording then (Reply(false, Some(AlreadyRecording), None), s)
    else
      var s1 := s.(deviceIds := deviceIds, model := model);
      match capture
      case CaptureStarted(file) =>
        (Reply(true, None, None), s1.(isRecording := true, status := Recording, recordingFile := file))
      case CaptureStartFailed(msg) =>
        (Reply(false, Some(msg), None), s1.(status := Error))
  }

  /** What the audio capture did when asked to stop. */
  datatype CaptureStop = CaptureStopped(recordedFile: Option<string>) | CaptureStopFailed(message: string)

  /** `stop_recording`. The recorded file is reported but not stored. */
  function StopRecording(s: Session, capture: CaptureStop): (r: (Reply, Session))
    ensures !s.isRecording ==> r == (Reply(false, Some(NotRecording), None), s)
    ensures s.isRecording && capture.CaptureStopped? ==>
              && r.0 == Reply(true, None, Some(capture.recordedFile))
              && r.1 == s.(isRecording := false, status := Processing)
    ensures s.isRecording && capture.CaptureStopFailed? ==>
              r == (Reply(false, Some(capture.message), None), s.(status := Error))
  {
    if !s.isRecording then (Reply(false, Some(NotRecording), None), s)
    else
      match capture
      case CaptureStopped(file) => (Reply(true, None, Some(file)), s.(isRecording := false, status := Processing))
      case CaptureStopFailed(msg) => (Reply(false, Some(msg), None), s.(status := Error))
  }

  /** A start followed by a stop, both succeeding, leaves the session not
      recording and waiting for processing, with the devices and model of the
      start. */
  lemma StartThenStop(s: Session, deviceIds: seq<string>, model: Option<string>, file: Option<string>, recorded: Option<string>)
    requires !s.isRecording
    ensures var s1 := StartRecording(s, deviceIds, model, CaptureStarted(file)).1;
            var (reply, s2) := StopRecording(s1, CaptureStopped(recorded));
            && reply.success && !s2.isRecording && s2.status == Processing
            && s2.deviceIds == deviceIds && s2.model == model && s2.recordingFile == file
  {
  }

  const NoTranscript: string := "No transcript available to summarize."

  /** `generate_summary` as it is meant to work: the fixed message for an empty
      transcript, otherwise whatever the summarizer returns or raises. */
  function GenerateSummary(transcript: seq<Segment>, summarize: seq<Segment> -> Result<string, string>): (r: Result<string, string>)
    ensures transcript == [] ==> r == Success(NoTranscript)
    ensures transcript != [] ==> r == summarize(transcript)
  {
    if transcript == [] then Success(NoTranscript) else summarize(transcript)
  }

  /** What one run of the transcriber produced: whether it succeeded and the
      transcript it then holds. */
  datatype TranscriberRun = TranscriberRun(success: bool, transcript: seq<Segment>)

  /** `process_audio_file`, with the summary step and the path the transcript
      file is saved under supplied. The transcript is stored before the
      summary is attempted, so it survives a summarizer failure. */
  function ProcessWith(s: Session, run: TranscriberRun, summary: Result<string, string>, savedPath: string): (r: (bool, Session))
    ensures !run.success ==> r == (false, s.(status := Error))
    ensures run.success && summary.Failure? ==>
              r == (false, s.(status := Error, transcript := run.transcript))
    ensures run.success && summary.Success? ==>
              r == (true, s.(status := Completed, transcript := run.transcript,
                             summary := summary.value, transcriptFile := Some(savedPath)))
  {
    var s1 := s.(status := Processing);
    if !run.success then (false, s1.(status := Error))
    else
      var s2 := s1.(transcript := run.transcript);
      match summary
      case Failure(_) => (false, s2.(status := Error))
      case Success(text) => (true, s2.(summary := text, transcriptFile := Some(savedPath), status := Completed))
  }

  /** `process_audio_file` with the summary generated as intended. */
  function ProcessAudioFile(s: Session, run: TranscriberRun, summarize: seq<Segment> -> Result<string, string>, savedPath: string): (r: (bool, Session))
    ensures r.0 <==> run.success && (run.transcript == [] || summarize(run.transcript).Success?)
    ensures r.0 ==> r.1.status == Completed && r.1.transcript == run.transcript &&
                    r.1.transcriptFile == Some(savedPath)
    ensures !r.0 ==> r.1.status == Error
    ensures r.0 && run.transcript == [] ==> r.1.summary == NoTranscript
  {
    ProcessWith(s, run, GenerateSummary(run.transcript, summarize), savedPath)
  }

  /** The message Python raises when `summarize_transcript`, which takes only
      the transcript, is also handed the model. */
  const ExtraArgumentError: string := "TypeError: summarize_transcript() takes 2 positional arguments but 3 were given"

  /** `generate_summary` as written: the summarizer is fetched through the
      shared service's getter, which cannot build one, and would then be
      called with an extra model argument; a non-empty transcript therefore
      always raises. */
  function GenerateSummaryAsWritten(s: Session, svc: LegacyModels.ModelService): (r: Result<string, string>)
    requires LegacyModels.Valid(svc)
    ensures s.transcript == [] ==> r == Success(NoTranscript)
    ensures s.transcript != [] ==> r.Failure?
  {
    if s.transcript == [] then Success(NoTranscript)
    else
      match LegacyModels.GetSummarizerAsWritten(svc, "ollama", s.model)
      case Failure(e) => Failure(e)
      case Success(_) => Failure(ExtraArgumentError)
  }

  /** `process_audio_file` as written. */
  function ProcessAudioFileAsWritten(s: Session, run: TranscriberRun, svc: LegacyModels.ModelService, savedPath: string): (r: (bool, Session))
    requires LegacyModels.Valid(svc)
  {
    var withTranscript := s.(transcript := run.transcript);
    ProcessWith(s, run, GenerateSummaryAsWritten(withTranscript, svc), savedPath)
  }

  /** As written, a successful transcription that produced any segment still
      ends the processing in the error status, with no summary or transcript
      file recorded; with a working summarizer the same run completes. */
  lemma ProcessAudioFileAsWrittenFails(s: Session, run: TranscriberRun, svc: LegacyModels.ModelService, savedPath: string)
    requires LegacyModels.Valid(svc)
    requires run.success && run.transcript != []
    ensures var (ok, s1) := ProcessAudioFileAsWritten(s, run, svc, savedPath);
            !ok && s1.status == Error && s1.summary == s.summary && s1.transcriptFile == s.transcriptFile
    ensures ProcessAudioFile(s, run, _ => Success("summary"), savedPath).0
  {
  }

  /** The counters `to_dict` reports beside the stored fields. */
  datatype ApiView = ApiView(sessionId: string, status: string, isRecording: bool, summaryLength: nat, transcriptLength: nat)

  /** `to_dict` without the optional data. */
  function ToApiView(s: Session): (v: ApiView)
    ensures v.summaryLength == |s.summary| && v.transcriptLength == |s.transcript|
    ensures v.sessionId == s.sessionId && v.status == s.status && v.isRecording == s.isRecording
  {
    ApiView(s.sessionId, s.status, s.isRecording, |s.summary|, |s.transcript|)
  }

  /** The storage dictionary: each key may be missing. */
  datatype StorageDict = StorageDict(
    sessionId: Option<string>,
    createdAt: Option<string>,
    status: Option<string>,
    model: Option<string>,
    deviceIds: Option<seq<string>>,
    recordingFile: Option<string>,
    transcriptFile: Option<string>,
    isRecording: Option<bool>,
    transcript: Option<seq<Segment>>,
    summary: Option<string>)

  /** `to_storage_dict`: every field under its key (`None` fields as null,
      which reads back as missing). */
  function ToStorageDict(s: Session): (d: StorageDict)
    ensures d.sessionId == Some(s.sessionId) && d.createdAt == Some(s.createdAt)
    ensures d.status == Some(s.status) && d.isRecording == Some(s.isRecording)
  {
    StorageDict(Some(s.sessionId), Some(s.createdAt), Some(s.status), s.model, Some(s.deviceIds),
                s.recordingFile, s.transcriptFile, Some(s.isRecording), Some(s.transcript), Some(s.summary))
  }

  const MissingCreatedAt: string := "TypeError: fromisoformat: argument must be str"

  /** `from_storage_dict`: missing keys take the constructor's defaults
      (status "created", no devices, not recording, empty transcript and
      summary); a missing creation time makes the ISO parse raise. */
  function FromStorageDict(d: StorageDict, freshId: string): (r: Result<Session, string>)
    ensures d.createdAt.None? <==> r.Failure?
    ensures r.Success? ==>
              && r.value.status == d.status.GetOr(Created)
              && r.value.deviceIds == d.deviceIds.GetOr([])
              && r.value.isRecording == d.isRecording.GetOr(false)
              && r.value.transcript == d.transcript.GetOr([])
              && r.value.summary == d.summary.GetOr("")
              && r.value.model == d.model
  {
    if d.createdAt.None? then Failure(MissingCreatedAt)
    else
      var s := NewSession(d.sessionId, freshId, d.createdAt.value);
      Success(s.(status := d.status.GetOr(Created), model := d.model, deviceIds := d.deviceIds.GetOr([]),
                 recordingFile := d.recordingFile, transcriptFile := d.transcriptFile,
                 isRecording := d.isRecording.GetOr(false), transcript := d.transcript.GetOr([]),
                 summary := d.summary.GetOr("")))
  }

  /** Saving and loading a session reproduces it, provided its id is not
      empty (an empty id is replaced by a fresh one on load). */
  lemma StorageRoundTrip(s: Session, freshId: string)
    requires s.sessionId != ""
    ensures FromStorageDict(ToStorageDict(s), freshId) == Success(s)
  {
  }

  /** A dictionary with only a creation time loads as a fresh session. */
  lemma StorageDefaults(createdAt: string, freshId: string)
    ensures var d := StorageDict(None, Some(createdAt), None, None, None, None, None, None, None, None);
            FromStorageDict(d, freshId) == Success(NewSession(None, freshId, createdAt))
  {
  }
}
