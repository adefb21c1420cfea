/** The session record of the current backend and the service that keeps one
    JSON file per session. The directory of session files is modelled as a map
    from session id to the record last saved under it. */
module Sessions {
  import opened Wrappers
  import opened Transcript
  import opened Sorting
  import opened Lists
  import opened Text

  // ---------------------------------------------------------------------------
  // The record
  // ---------------------------------------------------------------------------

  datatype SessionStatus = Created | Recording | Processing | Completed | Error

  /** The string each status is stored as. */
  function StatusValue(st: SessionStatus): string {
    match st
    case Created => "created"
    case Recording => "recording"
    case Processing => "processing"
    case Completed => "completed"
    case Error => "error"
  }

  /** Reading a stored status back: only the five values are accepted. */
  function ParseStatus(s: string): (r: Option<SessionStatus>)
    ensures r.Some? ==> StatusValue(r.value) == s
  {
    if s == "created" then Some(Created)
    else if s == "recording" then Some(Recording)
    else if s == "processing" then Some(Processing)
    else if s == "completed" then Some(Completed)
    else if s == "error" then Some(Error)
    else None
  }

  /** Every status reads back as itself, so the five stored values are
      distinct and are exactly the ones `ParseStatus` accepts. */
  lemma StatusRoundTrip(st: SessionStatus)
    ensures ParseStatus(StatusValue(st)) == Some(st)
  {
  }

  const DefaultName: string := "Untitled Session"

  /** Times are seconds on the wall clock. */
  datatype Session = Session(
    id: string,
    name: string,
    status: SessionStatus,
    createdAt: real,
    updatedAt: real,
    audioFile: Option<string>,
    transcript: seq<TranscriptSegment>,
    summary: string,
    notes: string,
    participants: seq<string>)

  /** The first eight characters of a fresh uuid, as Python's slice takes
      them. */
  function ShortId(uuid: string): (r: string)
    ensures |r| <= 8
    ensures StartsWith(uuid, r)
    ensures |uuid| >= 8 ==> |r| == 8
  {
    if |uuid| <= 8 then uuid else uuid[..8]
  }

  /** A fresh record with the field defaults; `uuid` and `now` are the values
      the default factories produce. */
  function NewSession(name: string, uuid: string, now: real): (s: Session)
    ensures s.id == ShortId(uuid) && s.name == name
    ensures s.status == Created && s.createdAt == now && s.updatedAt == now
    ensures s.audioFile.None? && s.transcript == [] && s.summary == "" && s.notes == "" && s.participants == []
  {
    Session(ShortId(uuid), name, Created, now, now, None, [], "", "", [])
  }

  /** The session files, by id. */
  type Store = map<string, Session>

  /** `save`: refreshes the update time and writes the record under its id. */
  function Save(store: Store, s: Session, now: real): (r: (Store, Session))
    ensures r.1 == s.(updatedAt := now)
    ensures r.0 == store[s.id := r.1]
  {
    var saved := s.(updatedAt := now);
    (store[s.id := saved], saved)
  }

  /** `load` of a session's file, or `None` when there is none. */
  function Load(store: Store, id: string): (r: Option<Session>)
    ensures r.Some? <==> id in store
    ensures r.Some? ==> r.value == store[id]
  {
    if id in store then Some(store[id]) else None
  }

  /** Loading after saving gives back the record as it was saved, and no
      other session's file changes. */
  lemma LoadAfterSave(store: Store, s: Session, now: real, other: string)
    requires other != s.id
    ensures var (store1, saved) := Save(store, s, now);
            Load(store1, s.id) == Some(saved) && saved.updatedAt == now &&
            saved == s.(updatedAt := now) &&
            Load(store1, other) == Load(store, other)
  {
  }

  // ---------------------------------------------------------------------------
  // The service
  // ---------------------------------------------------------------------------

  /** Most recently created first. */
  function NewestFirst(): ((Session, Session) -> bool) {
    (a: Session, b: Session) => a.createdAt >= b.createdAt
  }

  lemma NewestFirstIsTotalPreorder()
    ensures TotalPreorder(NewestFirst())
  {
  }

  /** The sessions whose files loaded, in directory order. */
  function Loaded(files: seq<Option<Session>>): (r: seq<Session>)
    ensures |r| <= |files|
    ensures forall i :: 0 <= i < |r| ==> Some(r[i]) in files
  {
    if files == [] then []
    else
      var rest := Loaded(files[1..]);
      assert forall x :: x in files[1..] ==> x in files;
      if files[0].Some? then [files[0].value] + rest else rest
  }

  /** `list_sessions`: the files that load, newest first. A file that fails
      to load is skipped. */
  function ListSessions(files: seq<Option<Session>>): (r: seq<Session>)
    ensures forall i, j :: 0 <= i < j < |r| ==> r[i].createdAt >= r[j].createdAt
    ensures multiset(r) == multiset(Loaded(files))
  {
    NewestFirstIsTotalPreorder();
    var r := Sort(Loaded(files), NewestFirst());
    assert forall i, j :: 0 <= i < j < |r| ==> NewestFirst()(r[i], r[j]);
    r
  }

  /** Every file that loads is listed, and nothing else is. */
  lemma {:induction false} LoadedExactly(files: seq<Option<Session>>, s: Session)
    ensures s in Loaded(files) <==> Some(s) in files
  {
    if files != [] {
      LoadedExactly(files[1..], s);
      assert files == [files[0]] + files[1..];
    }
  }

  /** `get_session` over the files that parse: the record stored under `id`,
      or `None` when there is no such file. */
  function GetSession(store: Store, id: string): (r: Option<Session>)
    ensures r.Some? <==> id in store
    ensures r.Some? ==> r.value == store[id]
    ensures WellKeyed(store) && r.Some? ==> r.value.id == id
  {
    Load(store, id)
  }

  /** One session file as read from disk: `None` for a file that does not
      parse. */
  type Files = map<string, Option<Session>>

  /** `get_session` when a file may be malformed: a missing file gives
      `None`, and a file that does not parse makes `Session.load` raise,
      which `get_session` does not catch. */
  function GetSessionFile(files: Files, id: string): (r: Result<Option<Session>, string>)
    ensures r.Failure? <==> id in files && files[id].None?
    ensures r == Success(None) <==> id !in files
    ensures r.Success? && r.value.Some? ==> id in files && files[id] == Some(r.value.value)
  {
    if id !in files then Success(None)
    else match files[id]
      case None => Failure("malformed session file")
      case Some(s) => Success(Some(s))
  }

  /** A malformed file is skipped by `list_sessions` yet makes `get_session`
      raise, while a well-formed one is both listed and returned. */
  lemma MalformedListedNotGot(files: Files, paths: seq<string>, id: string)
    requires id in paths
    requires forall p :: p in paths ==> p in files
    ensures files[id].None? ==> GetSessionFile(files, id).Failure?
    ensures files[id].Some? ==>
              GetSessionFile(files, id) == Success(files[id]) &&
              files[id].value in ListSessions(FilesAt(files, paths))
  {
    if files[id].Some? {
      var i :| 0 <= i < |paths| && paths[i] == id;
      assert FilesAt(files, paths)[i] == files[id];
      LoadedExactly(FilesAt(files, paths), files[id].value);
      assert multiset(ListSessions(FilesAt(files, paths)))[files[id].value] > 0;
    }
  }

  /** The parse results of the files at `paths`, in order. */
  function FilesAt(files: Files, paths: seq<string>): (r: seq<Option<Session>>)
    requires forall p :: p in paths ==> p in files
    ensures |r| == |paths|
    ensures forall i :: 0 <= i < |paths| ==> r[i] == files[paths[i]]
  {
    if paths == [] then [] else [files[paths[0]]] + FilesAt(files, paths[1..])
  }

  /** `create_session`: a fresh record with `name`, saved. */
  function CreateSession(store: Store, name: string, uuid: string, now: real): (r: (Store, Session))
    ensures r.1.name == name && r.1.status == Created
    ensures GetSession(r.0, r.1.id) == Some(r.1)
    ensures forall id :: id != r.1.id ==> GetSession(r.0, id) == GetSession(store, id)
  {
    Save(store, NewSession(name, uuid, now), now)
  }

  /** `update_session`. */
  function UpdateSession(store: Store, s: Session, now: real): (r: (Store, Session))
    ensures GetSession(r.0, s.id) == Some(r.1) && r.1 == s.(updatedAt := now)
  {
    Save(store, s, now)
  }

  /** Every file holds the session whose id names it. Creating and saving
      keep this; a record is only ever written under its own id. */
  predicate WellKeyed(store: Store) {
    forall k :: k in store ==> store[k].id == k
  }

  /** The shape shared by the single-field setters: load, change, save; an
      unknown id yields `None` and touches nothing. */
  function Modify(store: Store, id: string, change: Session -> Session, now: real): (r: (Option<Session>, Store))
    requires forall s :: change(s).id == s.id
    ensures id !in store ==> r == (None, store)
    ensures id in store ==>
              && r.0 == Some(change(store[id]).(updatedAt := now))
              && r.1 == store[store[id].id := r.0.value]
  {
    match GetSession(store, id)
    case None => (None, store)
    case Some(s) =>
      var (store1, saved) := Save(store, change(s), now);
      (Some(saved), store1)
  }

  /** In a well-keyed store a setter rewrites the file it read, and the store
      stays well keyed. */
  lemma ModifyKeepsKeys(store: Store, id: string, change: Session -> Session, now: real)
    requires forall s :: change(s).id == s.id
    requires WellKeyed(store) && id in store
    ensures var (r, store1) := Modify(store, id, change, now);
            store1 == store[id := r.value] && WellKeyed(store1) && store1.Keys == store.Keys
  {
  }

  /** Creating a session keeps the store well keyed. */
  lemma CreateKeepsKeys(store: Store, name: string, uuid: string, now: real)
    requires WellKeyed(store)
    ensures WellKeyed(CreateSession(store, name, uuid, now).0)
  {
  }

  /** `rename_session`. */
  function RenameSession(store: Store, id: string, name: string, now: real): (r: (Option<Session>, Store))
    ensures id !in store ==> r == (None, store)
    ensures id in store ==> r.0 == Some(store[id].(name := name, updatedAt := now)) && r.1 == store[store[id].id := r.0.value]
  {
    Modify(store, id, (s: Session) => s.(name := name), now)
  }

  /** `update_notes`. */
  function UpdateNotes(store: Store, id: string, notes: string, now: real): (r: (Option<Session>, Store))
    ensures id !in store ==> r == (None, store)
    ensures id in store ==> r.0 == Some(store[id].(notes := notes, updatedAt := now)) && r.1 == store[store[id].id := r.0.value]
  {
    Modify(store, id, (s: Session) => s.(notes := notes), now)
  }

  /** `set_status`: any status may follow any other. */
  function SetStatus(store: Store, id: string, status: SessionStatus, now: real): (r: (Option<Session>, Store))
    ensures id !in store ==> r == (None, store)
    ensures id in store ==> r.0 == Some(store[id].(status := status, updatedAt := now)) && r.1 == store[store[id].id := r.0.value]
  {
    Modify(store, id, (s: Session) => s.(status := status), now)
  }

  /** `set_audio_file`. */
  function SetAudioFile(store: Store, id: string, audioFile: string, now: real): (r: (Option<Session>, Store))
    ensures id !in store ==> r == (None, store)
    ensures id in store ==> r.0 == Some(store[id].(audioFile := Some(audioFile), updatedAt := now)) && r.1 == store[store[id].id := r.0.value]
  {
    Modify(store, id, (s: Session) => s.(audioFile := Some(audioFile)), now)
  }

  /** `set_summary`. */
  function SetSummary(store: Store, id: string, summary: string, now: real): (r: (Option<Session>, Store))
    ensures id !in store ==> r == (None, store)
    ensures id in store ==> r.0 == Some(store[id].(summary := summary, updatedAt := now)) && r.1 == store[store[id].id := r.0.value]
  {
    Modify(store, id, (s: Session) => s.(summary := summary), now)
  }

  /** No transition is refused: from every stored status, every target status
      is reached, and the stored record then has it. */
  lemma SetStatusUnchecked(store: Store, id: string, status: SessionStatus, now: real)
    requires WellKeyed(store) && id in store
    ensures var (r, store1) := SetStatus(store, id, status, now);
            r.Some? && GetSession(store1, id).value.status == status
  {
  }

  /** The label the engine gives a segment whose speaker it could not tell. */
  const UnknownSpeaker: string := "UNKNOWN"

  /** The speaker of each segment, skipping unknown ones, in order. */
  function KnownSpeakers(transcript: seq<TranscriptSegment>): (r: seq<string>)
    ensures forall i :: 0 <= i < |r| ==> r[i] != UnknownSpeaker
  {
    if transcript == [] then []
    else
      var rest := KnownSpeakers(transcript[1..]);
      if transcript[0].speaker != UnknownSpeaker then [transcript[0].speaker] + rest else rest
  }

  lemma {:induction false} KnownSpeakersHas(transcript: seq<TranscriptSegment>, x: string)
    ensures x in KnownSpeakers(transcript) <==>
              x != UnknownSpeaker && exists i :: 0 <= i < |transcript| && transcript[i].speaker == x
  {
    if transcript != [] {
      KnownSpeakersHas(transcript[1..], x);
      if x != UnknownSpeaker && (exists i :: 0 <= i < |transcript| && transcript[i].speaker == x) {
        var i :| 0 <= i < |transcript| && transcript[i].speaker == x;
        if i > 0 {
          assert transcript[1..][i - 1].speaker == x;
        }
      }
      if exists i :: 0 <= i < |transcript[1..]| && transcript[1..][i].speaker == x {
        var i :| 0 <= i < |transcript[1..]| && transcript[1..][i].speaker == x;
        assert transcript[i + 1].speaker == x;
      }
    }
  }

  /** The participants derived from a transcript: its known speakers, each
      once, in order of first appearance. */
  function Participants(transcript: seq<TranscriptSegment>): (r: seq<string>)
    ensures NoDuplicates(r)
  {
    Distinct(KnownSpeakers(transcript))
  }

  /** A name is a participant exactly when some segment is spoken by it and it
      is not the unknown label; participants are listed by first appearance. */
  lemma ParticipantsExactly(transcript: seq<TranscriptSegment>, x: string)
    ensures x in Participants(transcript) <==>
              x != UnknownSpeaker && exists i :: 0 <= i < |transcript| && transcript[i].speaker == x
    ensures FirstOccurrenceOrder(Participants(transcript), KnownSpeakers(transcript))
  {
    DistinctContains(KnownSpeakers(transcript), x);
    KnownSpeakersHas(transcript, x);
    DistinctOrder(KnownSpeakers(transcript));
  }

  /** `set_transcript`: replaces the transcript, derives the participants and
      marks the session completed. */
  function SetTranscript(store: Store, id: string, transcript: seq<TranscriptSegment>, now: real): (r: (Option<Session>, Store))
    ensures id !in store ==> r == (None, store)
    ensures id in store ==>
              && r.0.Some?
              && r.0.value == store[id].(transcript := transcript, participants := Participants(transcript),
                                         status := Completed, updatedAt := now)
              && r.1 == store[store[id].id := r.0.value]
  {
    Modify(store, id, (s: Session) => s.(transcript := transcript, participants := Participants(transcript), status := Completed), now)
  }

  /** `delete_session`: an unknown id is refused; otherwise the session's file
      and its recordings directory (when there is one) are removed. No check
      is made for an active recording. */
  function DeleteSession(store: Store, recordings: set<string>, id: string): (r: (bool, Store, set<string>))
    ensures r.0 <==> id in store
    ensures !r.0 ==> r.1 == store && r.2 == recordings
    ensures r.0 ==> GetSession(r.1, id).None? && id !in r.2
    ensures forall k :: k != id ==> GetSession(r.1, k) == GetSession(store, k)
    ensures r.0 ==> r.2 == recordings - {id}
  {
    if id !in store then (false, store, recordings)
    else (true, store - {id}, recordings - {id})
  }

  /** Deleting twice: the second delete of the same id reports failure. */
  lemma DeleteNotIdempotent(store: Store, recordings: set<string>, id: string)
    requires id in store
    ensures var (ok, store1, rec1) := DeleteSession(store, recordings, id);
            ok && !DeleteSession(store1, rec1, id).0
  {
  }
}
