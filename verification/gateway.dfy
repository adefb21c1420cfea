/** The streaming gateway: the list of open client connections, the event
    trace a transcription run broadcasts to them, and the routing of inbound
    client messages. The engine's run is an input: either loading failed, or
    it yielded some segments and then either finished or raised. */
module Gateway {
  import opened Wrappers
  import opened Transcript
  import Sessions

  /** A client connection; `id` stands for the socket's identity. */
  datatype Conn = Conn(id: nat)

  /** `connect`: the accepted socket joins the end of the list. */
  function Connect(active: seq<Conn>, ws: Conn): (r: seq<Conn>)
    ensures |r| == |active| + 1 && r[..|active|] == active && r[|active|] == ws
  {
    active + [ws]
  }

  /** `list.remove`: the first occurrence goes; a socket that is not there
      raises. */
  function Disconnect(active: seq<Conn>, ws: Conn): (r: Result<seq<Conn>, string>)
    ensures r.Failure? <==> ws !in active
    ensures r.Success? ==> |r.value| == |active| - 1 && multiset(r.value) == multiset(active) - multiset{ws}
  {
    if ws !in active then Failure("ValueError: list.remove(x): x not in list")
    else
      var i := FirstIndexOf(active, ws);
      assert active == active[..i] + [ws] + active[i + 1..];
      Success(active[..i] + active[i + 1..])
  }

  function FirstIndexOf(xs: seq<Conn>, x: Conn): (i: nat)
    requires x in xs
    ensures i < |xs| && xs[i] == x && x !in xs[..i]
  {
    if xs[0] == x then
      assert xs[..0] == [];
      0
    else
      assert x in xs[1..] by {
        var k :| 0 <= k < |xs| && xs[k] == x;
        assert xs[1..][k - 1] == x;
      }
      var j := FirstIndexOf(xs[1..], x);
      assert xs[..j + 1] == [xs[0]] + xs[1..][..j];
      j + 1
  }

  /** Connecting and then disconnecting the same new socket restores the list. */
  lemma ConnectThenDisconnect(active: seq<Conn>, ws: Conn)
    requires ws !in active
    ensures Disconnect(Connect(active, ws), ws) == Success(active)
  {
    var c := Connect(active, ws);
    var i := FirstIndexOf(c, ws);
    assert c[..|active|] == active;
    assert i == |active|;
    assert c[..i] == active;
    assert c[i + 1..] == [];
    assert c[..i] + c[i + 1..] == active;
  }

  /** One delivery attempt of a broadcast: the socket and whether the send
      went through. */
  datatype Attempt = Attempt(to: Conn, delivered: bool)

  /** `broadcast`: every open socket is tried in order; a failed send is
      swallowed and the loop goes on. */
  function Broadcast(active: seq<Conn>, sendOk: Conn -> bool): (r: seq<Attempt>)
    ensures |r| == |active|
    ensures forall i :: 0 <= i < |r| ==> r[i].to == active[i] && r[i].delivered == sendOk(active[i])
  {
    if active == [] then [] else [Attempt(active[0], sendOk(active[0]))] + Broadcast(active[1..], sendOk)
  }

  /** The sockets a broadcast reached. */
  function Reached(attempts: seq<Attempt>): set<Conn> {
    set i | 0 <= i < |attempts| && attempts[i].delivered :: attempts[i].to
  }

  /** A socket is reached exactly when it is open and its own send succeeds:
      one broken socket does not keep the message from the others. */
  lemma BroadcastReaches(active: seq<Conn>, sendOk: Conn -> bool, ws: Conn)
    ensures ws in Reached(Broadcast(active, sendOk)) <==> ws in active && sendOk(ws)
  {
    var r := Broadcast(active, sendOk);
    if ws in active && sendOk(ws) {
      var i :| 0 <= i < |active| && active[i] == ws;
      assert r[i].to == ws && r[i].delivered;
    }
  }

  // ---------------------------------------------------------------------------
  // The transcription trace
  // ---------------------------------------------------------------------------

  /** An outbound event; every event carries the request's session id. */
  datatype Event =
    | Status(sessionId: Option<string>, message: string)
    | Transcription(sessionId: Option<string>, segment: TranscriptSegment)
    | ErrorEvent(sessionId: Option<string>, message: string)

  /** How the engine's run went: the model load raised, or the run yielded
      `segments` and then raised `error` or finished. */
  datatype Run =
    | LoadFailed(message: string)
    | Yielded(segments: seq<TranscriptSegment>, error: Option<string>)

  function SegmentEvents(sid: Option<string>, segs: seq<TranscriptSegment>): (r: seq<Event>)
    ensures |r| == |segs|
    ensures forall i :: 0 <= i < |r| ==> r[i] == Transcription(sid, segs[i])
  {
    if segs == [] then [] else [Transcription(sid, segs[0])] + SegmentEvents(sid, segs[1..])
  }

  /** The segments carried by the transcription events of a trace, in order. */
  function SegmentsOf(events: seq<Event>): seq<TranscriptSegment> {
    if events == [] then []
    else (if events[0].Transcription? then [events[0].segment] else []) + SegmentsOf(events[1..])
  }

  lemma {:induction false} SegmentsOfAppend(a: seq<Event>, b: seq<Event>)
    ensures SegmentsOf(a + b) == SegmentsOf(a) + SegmentsOf(b)
  {
    if a != [] {
      assert (a + b)[1..] == a[1..] + b;
      SegmentsOfAppend(a[1..], b);
    } else {
      assert a + b == b;
    }
  }

  lemma {:induction false} SegmentsOfSegmentEvents(sid: Option<string>, segs: seq<TranscriptSegment>)
    ensures SegmentsOf(SegmentEvents(sid, segs)) == segs
  {
    if segs != [] {
      assert SegmentEvents(sid, segs)[1..] == SegmentEvents(sid, segs[1..]);
      SegmentsOfSegmentEvents(sid, segs[1..]);
    }
  }

  /** Python's truthiness of the optional session id. */
  predicate HasSession(sid: Option<string>) {
    sid.Some? && sid.value != ""
  }

  /** `broadcast_transcription`: the events sent, the list returned and the
      session store afterwards. */
  function BroadcastTranscription(sid: Option<string>, run: Run, store: Sessions.Store, now: real)
    : (r: (seq<Event>, seq<TranscriptSegment>, Sessions.Store))
    ensures |r.0| >= 2 && r.0[0] == Status(sid, "Loading models...")
    ensures run.Yielded? && run.error.None? ==>
              r.0 == [Status(sid, "Loading models..."), Status(sid, "Transcribing...")]
                     + SegmentEvents(sid, run.segments) + [Status(sid, "Transcription complete")]
              && r.1 == run.segments
    ensures run.LoadFailed? ==> r == ([Status(sid, "Loading models..."), ErrorEvent(sid, run.message)], [], store)
    ensures run.Yielded? && run.error.Some? ==>
              r.0 == [Status(sid, "Loading models..."), Status(sid, "Transcribing...")]
                     + SegmentEvents(sid, run.segments) + [ErrorEvent(sid, run.error.value)]
              && r.1 == [] && r.2 == store
    ensures r.2 != store ==> HasSession(sid) && run.Yielded? && run.error.None? && run.segments != []
  {
    var loading := Status(sid, "Loading models...");
    match run
    case LoadFailed(msg) => ([loading, ErrorEvent(sid, msg)], [], store)
    case Yielded(segs, error) =>
      var streamed := [loading, Status(sid, "Transcribing...")] + SegmentEvents(sid, segs);
      if error.Some? then (streamed + [ErrorEvent(sid, error.value)], [], store)
      else
        var store1 := if HasSession(sid) && segs != [] then Sessions.SetTranscript(store, sid.value, segs, now).1 else store;
        (streamed + [Status(sid, "Transcription complete")], segs, store1)
  }

  /** Clients see every segment the run produced, in order, whether or not the
      run then failed: segment events already sent are not retracted, and on
      success they are exactly the returned list. */
  lemma TraceCarriesSegments(sid: Option<string>, run: Run, store: Sessions.Store, now: real)
    requires run.Yielded?
    ensures var (events, returned, _) := BroadcastTranscription(sid, run, store, now);
            && SegmentsOf(events) == run.segments
            && (run.error.None? ==> SegmentsOf(events) == returned)
  {
    var events := BroadcastTranscription(sid, run, store, now).0;
    var head := [Status(sid, "Loading models..."), Status(sid, "Transcribing...")];
    var last := events[|events| - 1];
    assert events == head + SegmentEvents(sid, run.segments) + [last];
    SegmentsOfAppend(head + SegmentEvents(sid, run.segments), [last]);
    SegmentsOfAppend(head, SegmentEvents(sid, run.segments));
    SegmentsOfSegmentEvents(sid, run.segments);
    assert SegmentsOf(head) == [] by {
      assert head[1..][1..] == [];
    }
    assert SegmentsOf([last]) == [] by {
      assert [last][1..] == [];
    }
  }

  /** A successful run with segments for a known session stores them as the
      session's transcript and completes it. */
  lemma TranscriptPersisted(sid: Option<string>, run: Run, store: Sessions.Store, now: real)
    requires HasSession(sid) && sid.value in store && Sessions.WellKeyed(store)
    requires run.Yielded? && run.error.None? && run.segments != []
    ensures var st := BroadcastTranscription(sid, run, store, now).2;
            sid.value in st && st[sid.value].transcript == run.segments && st[sid.value].status == Sessions.Completed
  {
  }

  // ---------------------------------------------------------------------------
  // Inbound messages
  // ---------------------------------------------------------------------------

  /** A decoded client message: every key may be missing. */
  datatype Inbound = Inbound(msgType: Option<string>, audioPath: Option<string>, sessionId: Option<string>)

  /** What the endpoint does with one message. */
  datatype Action =
    | StartTranscription(audioPath: string, sessionId: Option<string>)
    | Pong(to: Conn)
    | Ignore

  /** The endpoint's dispatch for a message from `ws`. */
  function Route(ws: Conn, msg: Inbound): (r: Action)
    ensures r.StartTranscription? <==> msg.msgType == Some("transcribe") && msg.audioPath.Some? && msg.audioPath.value != ""
    ensures r.StartTranscription? ==> r.audioPath == msg.audioPath.value && r.sessionId == msg.sessionId
    ensures r.Pong? <==> msg.msgType == Some("ping")
    ensures r.Pong? ==> r.to == ws
  {
    if msg.msgType == Some("transcribe") then
      if msg.audioPath.Some? && msg.audioPath.value != "" then StartTranscription(msg.audioPath.value, msg.sessionId)
      else Ignore
    else if msg.msgType == Some("ping") then Pong(ws)
    else Ignore
  }

  // ---------------------------------------------------------------------------
  // The endpoint loop
  // ---------------------------------------------------------------------------

  /** What one `receive_text` gives the endpoint: a message that decodes as
      JSON, text that does not, or the client's disconnect. */
  datatype Received = Text(msg: Inbound) | Malformed | Closed

  /** How the endpoint loop ended: still waiting for more, left through
      `WebSocketDisconnect`, or left through the decoding error. */
  datatype Exit = StillOpen | Disconnected | Crashed

  /** The receive loop: each decoded message is routed in order; the first
      disconnect or undecodable text ends it. */
  function ServeLoop(ws: Conn, incoming: seq<Received>): (r: (seq<Action>, Exit))
    ensures |r.0| <= |incoming|
    ensures forall i :: 0 <= i < |r.0| ==> incoming[i].Text? && r.0[i] == Route(ws, incoming[i].msg)
    ensures |r.0| == |incoming| <==> r.1 == StillOpen
    ensures |r.0| < |incoming| ==>
              !incoming[|r.0|].Text? && r.1 == (if incoming[|r.0|].Closed? then Disconnected else Crashed)
  {
    if incoming == [] then ([], StillOpen)
    else match incoming[0]
      case Closed => ([], Disconnected)
      case Malformed => ([], Crashed)
      case Text(msg) =>
        var (rest, exit) := ServeLoop(ws, incoming[1..]);
        ([Route(ws, msg)] + rest, exit)
  }

  /** `websocket_endpoint`: the socket joins the list, the loop runs, and
      only a disconnect takes it out again; the decoding error escapes the
      handler with the socket still listed. */
  function Serve(active: seq<Conn>, ws: Conn, incoming: seq<Received>): (r: (seq<Action>, seq<Conn>, Exit))
    ensures r.0 == ServeLoop(ws, incoming).0 && r.2 == ServeLoop(ws, incoming).1
    ensures r.2 != Disconnected ==> r.1 == Connect(active, ws)
    ensures r.2 == Disconnected ==> multiset(r.1) == multiset(active)
    ensures r.2 == Disconnected && ws !in active ==> r.1 == active
  {
    var connected := Connect(active, ws);
    var (actions, exit) := ServeLoop(ws, incoming);
    if exit == Disconnected then
      assert ws in connected;
      var removed := Disconnect(connected, ws).value;
      assert multiset(connected) == multiset(active) + multiset{ws};
      RestoredWhenNew(active, ws);
      (actions, removed, exit)
    else (actions, connected, exit)
  }

  lemma RestoredWhenNew(active: seq<Conn>, ws: Conn)
    ensures ws !in active ==> Disconnect(Connect(active, ws), ws) == Success(active)
  {
    if ws !in active {
      ConnectThenDisconnect(active, ws);
    }
  }

  /** A client whose first text is not JSON leaves its socket behind: the
      socket stays listed, and every later broadcast still tries to send to
      it. */
  lemma MalformedLeavesSocket(active: seq<Conn>, ws: Conn, rest: seq<Received>, sendOk: Conn -> bool)
    ensures var (actions, after, exit) := Serve(active, ws, [Malformed] + rest);
            && actions == [] && exit == Crashed
            && ws in after
            && exists i :: 0 <= i < |Broadcast(after, sendOk)| && Broadcast(after, sendOk)[i].to == ws
  {
    var after := Serve(active, ws, [Malformed] + rest).1;
    assert after[|active|] == ws;
    assert Broadcast(after, sendOk)[|active|].to == ws;
  }
}
