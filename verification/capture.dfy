/** PipeWire capture: picking the audio nodes out of a `pw-dump` listing,
    planning one `pw-record` process per requested device, and turning the
    finished recordings into Opus files. The external programs are reached
    through their observable results: the listing, exit codes and files. */
module Capture {
  import opened Wrappers
  import opened Text
  import Sessions

  // ---------------------------------------------------------------------------
  // Devices
  // ---------------------------------------------------------------------------

  /** One object of the `pw-dump` JSON array, with the properties this code
      reads; a missing key is `None`. */
  datatype PwObject = PwObject(
    objType: Option<string>,
    id: Option<int>,
    mediaClass: Option<string>,
    nodeName: Option<string>,
    nodeDescription: Option<string>)

  /** What running `pw-dump` produced. */
  datatype PwDump = PwDump(returnCode: int, objects: seq<PwObject>, stderr: string)

  datatype AudioDevice = AudioDevice(id: int, name: string, description: string, mediaClass: string, isMonitor: bool)

  /** A device is an input when its media class names a source. */
  predicate IsInput(d: AudioDevice) {
    Contains(d.mediaClass, "Source")
  }

  /** A device is an output when its media class names a sink. */
  predicate IsOutput(d: AudioDevice) {
    Contains(d.mediaClass, "Sink")
  }

  const NodeType: string := "PipeWire:Interface:Node"

  /** The objects that become devices: audio nodes that are a source or a
      sink. */
  predicate IsAudioNode(o: PwObject) {
    var mc := o.mediaClass.GetOr("");
    o.objType == Some(NodeType) && Contains(mc, "Audio") && (Contains(mc, "Source") || Contains(mc, "Sink"))
  }

  /** A node is a monitor when its name contains ".monitor" or its
      description contains "Monitor". */
  predicate IsMonitorNode(o: PwObject) {
    Contains(o.nodeName.GetOr(""), ".monitor") || Contains(o.nodeDescription.GetOr(""), "Monitor")
  }

  /** The description, falling back to the node name and then "unknown". */
  function Description(o: PwObject): (r: string)
    ensures o.nodeDescription.Some? ==> r == o.nodeDescription.value
    ensures o.nodeDescription.None? && o.nodeName.Some? ==> r == o.nodeName.value
    ensures o.nodeDescription.None? && o.nodeName.None? ==> r == "unknown"
  {
    match o.nodeDescription
    case Some(d) => d
    case None => o.nodeName.GetOr("unknown")
  }

  /** The device for an audio node; `None` when it has no id (the lookup of
      `obj["id"]` raises). */
  function ToDevice(o: PwObject): (r: Option<AudioDevice>)
    ensures r.Some? <==> o.id.Some?
    ensures r.Some? ==> r.value == AudioDevice(o.id.value, o.nodeName.GetOr(""), Description(o),
                                                 o.mediaClass.GetOr(""), IsMonitorNode(o))
  {
    match o.id
    case None => None
    case Some(id) => Some(AudioDevice(id, o.nodeName.GetOr(""), Description(o), o.mediaClass.GetOr(""), IsMonitorNode(o)))
  }

  /** The audio nodes of a listing, in order. */
  function AudioNodes(objs: seq<PwObject>): (r: seq<PwObject>)
    ensures |r| <= |objs|
    ensures forall i :: 0 <= i < |r| ==> IsAudioNode(r[i]) && r[i] in objs
  {
    if objs == [] then []
    else
      var rest := AudioNodes(objs[1..]);
      assert forall x :: x in objs[1..] ==> x in objs;
      if IsAudioNode(objs[0]) then [objs[0]] + rest else rest
  }

  lemma {:induction false} AudioNodesExactly(objs: seq<PwObject>, o: PwObject)
    ensures o in AudioNodes(objs) <==> o in objs && IsAudioNode(o)
  {
    if objs != [] {
      AudioNodesExactly(objs[1..], o);
      assert objs == [objs[0]] + objs[1..];
    }
  }

  /** The filter works node by node and keeps the listing's order: with
      `AudioNodesSingle` this fixes the result as "the audio nodes, in
      listing order". */
  lemma {:induction false} AudioNodesAppend(a: seq<PwObject>, b: seq<PwObject>)
    ensures AudioNodes(a + b) == AudioNodes(a) + AudioNodes(b)
  {
    if a == [] {
      assert a + b == b;
    } else {
      assert (a + b)[0] == a[0];
      assert (a + b)[1..] == a[1..] + b;
      AudioNodesAppend(a[1..], b);
    }
  }

  lemma AudioNodesSingle(o: PwObject)
    ensures AudioNodes([o]) == (if IsAudioNode(o) then [o] else [])
  {
  }

  /** The devices of a list of audio nodes, or the failure of the first node
      without an id. */
  function DevicesOf(nodes: seq<PwObject>): (r: Result<seq<AudioDevice>, string>)
    ensures r.Success? <==> forall i :: 0 <= i < |nodes| ==> nodes[i].id.Some?
    ensures r.Success? ==> (|r.value| == |nodes| &&
              forall i :: 0 <= i < |nodes| ==> ToDevice(nodes[i]) == Some(r.value[i]))
  {
    if nodes == [] then Success([])
    else
      match ToDevice(nodes[0])
      case None => Failure("KeyError: 'id'")
      case Some(d) =>
        match DevicesOf(nodes[1..])
        case Failure(e) => Failure(e)
        case Success(ds) => Success([d] + ds)
  }

  /** `list_devices`: refuses a failed `pw-dump`; otherwise one device per
      audio node, in listing order. */
  function ListDevices(dump: PwDump): (r: Result<seq<AudioDevice>, string>)
    ensures dump.returnCode != 0 ==> r == Failure("pw-dump failed: " + dump.stderr)
    ensures dump.returnCode == 0 ==> r == DevicesOf(AudioNodes(dump.objects))
  {
    if dump.returnCode != 0 then Failure("pw-dump failed: " + dump.stderr)
    else DevicesOf(AudioNodes(dump.objects))
  }

  /** Every listed device is an audio input or output, and is a monitor
      exactly when its node says so. */
  lemma ListedDevicesAreAudio(dump: PwDump, i: nat)
    requires ListDevices(dump).Success? && i < |ListDevices(dump).value|
    ensures var d := ListDevices(dump).value[i];
            Contains(d.mediaClass, "Audio") && (IsInput(d) || IsOutput(d))
  {
    var nodes := AudioNodes(dump.objects);
    assert ToDevice(nodes[i]) == Some(ListDevices(dump).value[i]);
  }

  /** `get_monitor_name_for_sink`. */
  function MonitorName(sink: string): (r: string)
    ensures StartsWith(r, sink) && EndsWith(r, ".monitor") && |r| == |sink| + 8
  {
    sink + ".monitor"
  }

  // ---------------------------------------------------------------------------
  // Recording
  // ---------------------------------------------------------------------------

  /** One planned `pw-record` process: the device, the full command line and
      the file it writes. */
  datatype RecordingProcess = RecordingProcess(deviceId: int, command: seq<string>, outputPath: string)

  datatype RecordingSession = RecordingSession(
    sessionId: string,
    outputDir: string,
    processes: seq<RecordingProcess>,
    isRecording: bool)

  const SampleRate: int := 48000
  const Channels: int := 1
  const SampleFormat: string := "s16"

  /** The device a listing holds under `id`; a later entry with the same id
      replaces an earlier one, as when the listing is turned into a dict. */
  function FindDevice(devices: seq<AudioDevice>, id: int): (r: Option<AudioDevice>)
    ensures r.Some? <==> exists i :: 0 <= i < |devices| && devices[i].id == id
    ensures r.Some? ==> r.value.id == id && r.value in devices
    ensures r.Some? ==> exists i :: 0 <= i < |devices| && devices[i] == r.value &&
                          forall j :: i < j < |devices| ==> devices[j].id != id
  {
    FindBefore(devices, id, |devices|)
  }

  /** The last of the first `n` devices with the id, searching backwards. */
  function FindBefore(devices: seq<AudioDevice>, id: int, n: nat): (r: Option<AudioDevice>)
    requires n <= |devices|
    ensures r.Some? <==> exists i :: 0 <= i < n && devices[i].id == id
    ensures r.Some? ==> r.value.id == id
    ensures r.Some? ==> exists i :: 0 <= i < n && devices[i] == r.value &&
                          forall j :: i < j < n ==> devices[j].id != id
  {
    if n == 0 then None
    else if devices[n - 1].id == id then Some(devices[n - 1])
    else FindBefore(devices, id, n - 1)
  }

  /** The record target: a sink's monitor for outputs, the numeric id for
      everything else. */
  function Target(d: AudioDevice): (r: string)
    ensures IsOutput(d) ==> r == MonitorName(d.name)
    ensures !IsOutput(d) ==> r == IntToString(d.id)
  {
    if IsOutput(d) then MonitorName(d.name) else IntToString(d.id)
  }

  /** The file a device's recording is written to. */
  function WavPath(outputDir: string, sessionId: string, deviceId: int): (r: string)
    ensures EndsWith(r, ".wav")
  {
    outputDir + "/" + sessionId + "_device_" + IntToString(deviceId) + ".wav"
  }

  /** The `pw-record` command line: fixed rate, channel and format options,
      then the target and the output file. */
  function RecordCommand(target: string, outputPath: string): (r: seq<string>)
    ensures |r| == 7 && r[0] == "pw-record" && r[4] == "--target" && r[5] == target && r[6] == outputPath
  {
    ["pw-record", "--rate=" + IntToString(SampleRate), "--channels=" + IntToString(Channels),
     "--format=" + SampleFormat, "--target", target, outputPath]
  }

  /** The processes for the requested ids that the listing knows, in the
      order requested; unknown ids are skipped. */
  function PlanProcesses(ids: seq<int>, devices: seq<AudioDevice>, outputDir: string, sessionId: string): (r: seq<RecordingProcess>)
    ensures |r| <= |ids|
    ensures forall k :: 0 <= k < |r| ==> EndsWith(r[k].outputPath, ".wav")
  {
    if ids == [] then []
    else
      var rest := PlanProcesses(ids[1..], devices, outputDir, sessionId);
      match FindDevice(devices, ids[0])
      case None => rest
      case Some(d) =>
        var path := WavPath(outputDir, sessionId, ids[0]);
        [RecordingProcess(ids[0], RecordCommand(Target(d), path), path)] + rest
  }

  /** The requested ids that the listing knows, in order. */
  function KnownIds(ids: seq<int>, devices: seq<AudioDevice>): (r: seq<int>)
    ensures forall id :: id in r ==> FindDevice(devices, id).Some?
  {
    if ids == [] then []
    else if FindDevice(devices, ids[0]).Some? then [ids[0]] + KnownIds(ids[1..], devices)
    else KnownIds(ids[1..], devices)
  }

  /** The process for one known device: it records the device's target into
      `{session}_device_{id}.wav`. */
  function ProcessFor(devices: seq<AudioDevice>, outputDir: string, sessionId: string, id: int): (p: RecordingProcess)
    requires FindDevice(devices, id).Some?
    ensures p.deviceId == id && p.outputPath == WavPath(outputDir, sessionId, id)
    ensures |p.command| == 7 && p.command[5] == Target(FindDevice(devices, id).value) && p.command[6] == p.outputPath
  {
    var path := WavPath(outputDir, sessionId, id);
    RecordingProcess(id, RecordCommand(Target(FindDevice(devices, id).value), path), path)
  }

  function ProcessesFor(known: seq<int>, devices: seq<AudioDevice>, outputDir: string, sessionId: string): (r: seq<RecordingProcess>)
    requires forall id :: id in known ==> FindDevice(devices, id).Some?
    ensures |r| == |known|
    ensures forall k :: 0 <= k < |known| ==> r[k] == ProcessFor(devices, outputDir, sessionId, known[k])
  {
    if known == [] then []
    else [ProcessFor(devices, outputDir, sessionId, known[0])] + ProcessesFor(known[1..], devices, outputDir, sessionId)
  }

  /** The plan is one process per known id, in the order requested. */
  lemma {:induction false} PlanProcessesSpec(ids: seq<int>, devices: seq<AudioDevice>, outputDir: string, sessionId: string)
    ensures PlanProcesses(ids, devices, outputDir, sessionId) == ProcessesFor(KnownIds(ids, devices), devices, outputDir, sessionId)
  {
    if ids != [] {
      PlanProcessesSpec(ids[1..], devices, outputDir, sessionId);
    }
  }

  // ---------------------------------------------------------------------------
  // Stopping and conversion
  // ---------------------------------------------------------------------------

  /** `wav_path.with_suffix(".ogg")` for a path ending in ".wav". */
  function OggPath(wav: string): (r: string)
    requires EndsWith(wav, ".wav")
    ensures EndsWith(r, ".ogg") && |r| == |wav|
    ensures r[..|r| - 4] == wav[..|wav| - 4]
  {
    wav[..|wav| - 4] + ".ogg"
  }

  /** What the file system and `ffmpeg` report for one output file. */
  datatype OutputFile = OutputFile(exists_: bool, size: int, ffmpegExit: int, ffmpegStderr: string)

  /** `convert_to_opus`: the `.ogg` path, or the failure of `ffmpeg`. */
  function ConvertToOpus(wav: string, f: OutputFile): (r: Result<string, string>)
    requires EndsWith(wav, ".wav")
    ensures f.ffmpegExit == 0 <==> r.Success?
    ensures r.Success? ==> r.value == OggPath(wav)
    ensures r.Failure? ==> r.error == "ffmpeg conversion failed: " + f.ffmpegStderr
  {
    if f.ffmpegExit != 0 then Failure("ffmpeg conversion failed: " + f.ffmpegStderr)
    else Success(OggPath(wav))
  }

  /** A recording is converted only when its file exists and is not empty. */
  predicate HasAudio(f: OutputFile) {
    f.exists_ && f.size > 0
  }

  predicate AllWav(ps: seq<RecordingProcess>) {
    forall k :: 0 <= k < |ps| ==> EndsWith(ps[k].outputPath, ".wav")
  }

  predicate WavPaths(paths: seq<string>) {
    forall p :: p in paths ==> EndsWith(p, ".wav")
  }

  /** The output paths of the processes, in order. */
  function Paths(ps: seq<RecordingProcess>): (r: seq<string>)
    ensures |r| == |ps|
    ensures forall k :: 0 <= k < |ps| ==> r[k] == ps[k].outputPath
    ensures AllWav(ps) ==> WavPaths(r)
  {
    if ps == [] then [] else [ps[0].outputPath] + Paths(ps[1..])
  }

  /** The paths whose recordings exist and are not empty before the stop
      loop deletes any of them, in order. */
  function AudioPaths(paths: seq<string>, probe: string -> OutputFile): (r: seq<string>)
    ensures |r| <= |paths|
    ensures forall p :: p in r <==> p in paths && HasAudio(probe(p))
  {
    if paths == [] then []
    else
      var rest := AudioPaths(paths[1..], probe);
      assert paths == [paths[0]] + paths[1..];
      if HasAudio(probe(paths[0])) then [paths[0]] + rest else rest
  }

  /** The first occurrence of each path not in `gone`, in order. */
  function Fresh(paths: seq<string>, gone: set<string>): (r: seq<string>)
    ensures forall p :: p in r <==> p in paths && p !in gone
    ensures forall j, k :: 0 <= j < k < |r| ==> r[j] != r[k]
  {
    if paths == [] then []
    else
      assert paths == [paths[0]] + paths[1..];
      if paths[0] in gone then Fresh(paths[1..], gone)
      else [paths[0]] + Fresh(paths[1..], gone + {paths[0]})
  }

  /** The conversions of the given paths, stopping at the first failure. */
  function ConvertAll(paths: seq<string>, probe: string -> OutputFile): (r: Result<seq<string>, string>)
    requires WavPaths(paths)
    ensures r.Success? <==> forall k :: 0 <= k < |paths| ==> probe(paths[k]).ffmpegExit == 0
    ensures r.Success? ==> (|r.value| == |paths| &&
              forall k :: 0 <= k < |paths| ==> r.value[k] == OggPath(paths[k]))
    ensures r.Failure? ==>
              exists k :: 0 <= k < |paths| && probe(paths[k]).ffmpegExit != 0
                          && (forall j :: 0 <= j < k ==> probe(paths[j]).ffmpegExit == 0)
                          && r.error == "ffmpeg conversion failed: " + probe(paths[k]).ffmpegStderr
  {
    if paths == [] then Success([])
    else
      assert paths[0] in paths;
      match ConvertToOpus(paths[0], probe(paths[0]))
      case Failure(e) => Failure(e)
      case Success(ogg) =>
        assert forall p :: p in paths[1..] ==> p in paths;
        var rest := ConvertAll(paths[1..], probe);
        assert forall k :: 1 <= k < |paths| ==> paths[k] == paths[1..][k - 1];
        match rest
        case Failure(e) =>
          ghost var k :| 0 <= k < |paths[1..]| && probe(paths[1..][k]).ffmpegExit != 0
                         && (forall j :: 0 <= j < k ==> probe(paths[1..][j]).ffmpegExit == 0)
                         && e == "ffmpeg conversion failed: " + probe(paths[1..][k]).ffmpegStderr;
          assert probe(paths[k + 1]).ffmpegExit != 0;
          Failure(e)
        case Success(tail) => Success([ogg] + tail)
  }

  /** The stop loop from the given path on. A path that exists and is not
      empty is converted, and the conversion deletes the `.wav`; `gone` holds
      the paths deleted so far, which no longer exist when a later process
      shares them. The first failed conversion raises. */
  function ConvertFrom(paths: seq<string>, gone: set<string>, probe: string -> OutputFile): (r: Result<seq<string>, string>)
    requires WavPaths(paths)
  {
    if paths == [] then Success([])
    else
      var path := paths[0];
      assert path in paths;
      assert forall p :: p in paths[1..] ==> p in paths;
      if path in gone || !HasAudio(probe(path)) then ConvertFrom(paths[1..], gone, probe)
      else
        match ConvertToOpus(path, probe(path))
        case Failure(e) => Failure(e)
        case Success(ogg) =>
          match ConvertFrom(paths[1..], gone + {path}, probe)
          case Failure(e) => Failure(e)
          case Success(rest) => Success([ogg] + rest)
  }

  /** The loop converts exactly the first occurrence of each path that had
      audio when the stop began, minus those already deleted. */
  lemma {:induction false} ConvertFromSpec(paths: seq<string>, gone: set<string>, probe: string -> OutputFile)
    requires WavPaths(paths)
    ensures WavPaths(Fresh(AudioPaths(paths, probe), gone))
    ensures ConvertFrom(paths, gone, probe) == ConvertAll(Fresh(AudioPaths(paths, probe), gone), probe)
  {
    if paths != [] {
      var path := paths[0];
      var tail := paths[1..];
      assert paths == [path] + tail;
      assert forall p :: p in tail ==> p in paths;
      var audio := AudioPaths(tail, probe);
      if !HasAudio(probe(path)) {
        assert AudioPaths(paths, probe) == audio;
        ConvertFromSpec(tail, gone, probe);
      } else {
        assert AudioPaths(paths, probe) == [path] + audio;
        assert ([path] + audio)[1..] == audio;
        if path in gone {
          assert Fresh([path] + audio, gone) == Fresh(audio, gone);
          ConvertFromSpec(tail, gone, probe);
        } else {
          assert Fresh([path] + audio, gone) == [path] + Fresh(audio, gone + {path});
          ConvertFromSpec(tail, gone + {path}, probe);
          var conv := Fresh(audio, gone + {path});
          assert ([path] + conv)[0] == path && ([path] + conv)[1..] == conv;
        }
      }
    }
  }

  /** The paths a stop converts: each non-empty recording's path once, in
      the order of its first process. */
  function Converted(s: RecordingSession, probe: string -> OutputFile): seq<string> {
    Fresh(AudioPaths(Paths(s.processes), probe), {})
  }

  /** `stop_recording`. The processes are terminated (not modelled), each
      process's recording is converted if its file still exists and is not
      empty, and the session stops recording; a failed conversion raises
      before that, so the session then still counts as recording. */
  function StopRecording(s: RecordingSession, probe: string -> OutputFile): (r: (Result<seq<string>, string>, RecordingSession))
    requires AllWav(s.processes)
    ensures WavPaths(Converted(s, probe))
    ensures r.0 == ConvertAll(Converted(s, probe), probe)
    ensures r.0.Success? ==> r.1 == s.(isRecording := false)
    ensures r.0.Failure? ==> r.1 == s
  {
    ConvertFromSpec(Paths(s.processes), {}, probe);
    var converted := ConvertFrom(Paths(s.processes), {}, probe);
    if converted.Success? then (converted, s.(isRecording := false)) else (converted, s)
  }

  /** Two paths with the same `.ogg` counterpart are the same `.wav`. */
  lemma OggPathInjective(a: string, b: string)
    requires EndsWith(a, ".wav") && EndsWith(b, ".wav")
    requires OggPath(a) == OggPath(b)
    ensures a == b
  {
    assert a == a[..|a| - 4] + ".wav";
    assert b == b[..|b| - 4] + ".wav";
  }

  /** A path is converted exactly when some process records to it and its
      recording is not empty. */
  lemma ConvertedExactly(s: RecordingSession, probe: string -> OutputFile, w: string)
    ensures w in Converted(s, probe) <==>
              exists p :: p in s.processes && p.outputPath == w && HasAudio(probe(w))
  {
    var paths := Paths(s.processes);
    if w in Converted(s, probe) {
      assert w in paths;
      var i :| 0 <= i < |paths| && paths[i] == w;
      assert s.processes[i] in s.processes;
    }
    if exists p :: p in s.processes && p.outputPath == w && HasAudio(probe(w)) {
      var p :| p in s.processes && p.outputPath == w && HasAudio(probe(w));
      var i :| 0 <= i < |s.processes| && s.processes[i] == p;
      assert paths[i] == w;
    }
  }

  /** Distinct `.wav` paths convert to distinct `.ogg` paths. */
  lemma ConvertAllDistinct(paths: seq<string>, probe: string -> OutputFile)
    requires WavPaths(paths) && ConvertAll(paths, probe).Success?
    requires forall j, k :: 0 <= j < k < |paths| ==> paths[j] != paths[k]
    ensures var oggs := ConvertAll(paths, probe).value;
            forall j, k :: 0 <= j < k < |oggs| ==> oggs[j] != oggs[k]
  {
    var oggs := ConvertAll(paths, probe).value;
    forall j, k | 0 <= j < k < |oggs| ensures oggs[j] != oggs[k] {
      if oggs[j] == oggs[k] {
        assert paths[j] in paths && paths[k] in paths;
        OggPathInjective(paths[j], paths[k]);
      }
    }
  }

  /** When every conversion succeeds, the files returned are the `.ogg`
      versions of the non-empty recordings, each named once however many
      processes share its path. */
  lemma StopRecordingFiles(s: RecordingSession, probe: string -> OutputFile)
    requires AllWav(s.processes)
    requires forall p :: p in s.processes ==> probe(p.outputPath).ffmpegExit == 0
    ensures var (r, s1) := StopRecording(s, probe);
            && r.Success? && !s1.isRecording
            && (forall j, k :: 0 <= j < k < |r.value| ==> r.value[j] != r.value[k])
            && (forall o :: o in r.value <==>
                  exists p :: p in s.processes && HasAudio(probe(p.outputPath)) && o == OggPath(p.outputPath))
  {
    var r := StopRecording(s, probe).0;
    var conv := Converted(s, probe);
    forall k | 0 <= k < |conv| ensures probe(conv[k]).ffmpegExit == 0 {
      assert conv[k] in conv;
      ConvertedExactly(s, probe, conv[k]);
    }
    assert r.Success?;
    ConvertAllDistinct(conv, probe);
    forall o ensures o in r.value <==>
        exists p :: p in s.processes && HasAudio(probe(p.outputPath)) && o == OggPath(p.outputPath)
    {
      if o in r.value {
        var k :| 0 <= k < |r.value| && r.value[k] == o;
        assert conv[k] in conv;
        ConvertedExactly(s, probe, conv[k]);
      }
      if exists p :: p in s.processes && HasAudio(probe(p.outputPath)) && o == OggPath(p.outputPath) {
        var p :| p in s.processes && HasAudio(probe(p.outputPath)) && o == OggPath(p.outputPath);
        ConvertedExactly(s, probe, p.outputPath);
        var k :| 0 <= k < |conv| && conv[k] == p.outputPath;
        assert r.value[k] == o;
      }
    }
  }

  /** Two processes recording one device share a `.wav`: it is converted
      once, and the second process finds it gone. */
  lemma RepeatedDeviceConvertedOnce(s: RecordingSession, probe: string -> OutputFile)
    requires |s.processes| == 2 && s.processes[0].outputPath == s.processes[1].outputPath
    requires EndsWith(s.processes[0].outputPath, ".wav")
    requires HasAudio(probe(s.processes[0].outputPath)) && probe(s.processes[0].outputPath).ffmpegExit == 0
    ensures StopRecording(s, probe).0 == Success([OggPath(s.processes[0].outputPath)])
  {
    var w := s.processes[0].outputPath;
    assert Paths(s.processes) == [w, w];
    assert AudioPaths([w, w], probe) == [w, w];
    assert [w, w][1..] == [w] && {} + {w} == {w};
    assert Fresh([w], {w}) == [];
    assert Fresh([w, w], {}) == [w];
    assert Converted(s, probe) == [w];
    var r := ConvertAll([w], probe);
    assert r.Success? && |r.value| == 1 && r.value[0] == OggPath(w);
    assert r.value == [OggPath(w)];
  }

  // ---------------------------------------------------------------------------
  // Starting
  // ---------------------------------------------------------------------------

  /** What the host does when a capture starts: the error creating the output
      directory raises, if any, and for the n-th `pw-record` spawn in plan
      order the error it raises, if any. */
  datatype Host = Host(mkdirError: Option<string>, spawnError: nat -> Option<string>)

  /** A start that raised: the message, and the `pw-record` processes already
      spawned when it was raised. They keep running, and no recording session
      refers to them. */
  datatype StartFailure = StartFailure(message: string, running: seq<RecordingProcess>)

  /** Spawns `plan[i..]` in order, the n-th spawn raising `spawnError(n)`; the
      first spawn that raises ends the loop with the processes before it
      running. */
  function SpawnFrom(plan: seq<RecordingProcess>, i: nat, spawnError: nat -> Option<string>): (r: Result<seq<RecordingProcess>, StartFailure>)
    requires i <= |plan|
    ensures r.Success? <==> forall k :: i <= k < |plan| ==> spawnError(k).None?
    ensures r.Success? ==> r.value == plan[i..]
    ensures r.Failure? ==>
              var n := |r.error.running|;
              && i + n < |plan|
              && r.error.running == plan[i..i + n]
              && spawnError(i + n) == Some(r.error.message)
              && forall k :: i <= k < i + n ==> spawnError(k).None?
    decreases |plan| - i
  {
    if i == |plan| then Success([])
    else
      match spawnError(i)
      case Some(e) => Failure(StartFailure(e, []))
      case None =>
        match SpawnFrom(plan, i + 1, spawnError)
        case Success(rest) =>
          assert [plan[i]] + plan[i + 1..] == plan[i..];
          Success([plan[i]] + rest)
        case Failure(f) =>
          var n := |f.running|;
          assert [plan[i]] + plan[i + 1..i + 1 + n] == plan[i..i + 1 + n];
          Failure(StartFailure(f.message, [plan[i]] + f.running))
  }

  /** Every spawn of the plan succeeds. */
  predicate AllSpawn(plan: seq<RecordingProcess>, host: Host) {
    forall k :: 0 <= k < |plan| ==> host.spawnError(k).None?
  }

  /** `start_recording`: creates the output directory, lists the devices and
      spawns one `pw-record` per known requested device under a fresh
      eight-character session id. Any of these can raise; there is no
      rollback, so a spawn that raises leaves the earlier processes running. */
  function StartRecording(ids: seq<int>, dump: PwDump, outputDir: string, uuid: string, host: Host): (r: Result<RecordingSession, StartFailure>)
    ensures r.Success? <==>
              && host.mkdirError.None?
              && ListDevices(dump).Success?
              && AllSpawn(PlanProcesses(ids, ListDevices(dump).value, outputDir, Sessions.ShortId(uuid)), host)
    ensures r.Success? ==>
              && r.value.isRecording
              && r.value.sessionId == Sessions.ShortId(uuid)
              && r.value.outputDir == outputDir
              && r.value.processes == PlanProcesses(ids, ListDevices(dump).value, outputDir, r.value.sessionId)
    ensures host.mkdirError.Some? ==> r == Failure(StartFailure(host.mkdirError.value, []))
    ensures host.mkdirError.None? && ListDevices(dump).Failure? ==> r == Failure(StartFailure(ListDevices(dump).error, []))
    ensures r.Failure? && host.mkdirError.None? && ListDevices(dump).Success? ==>
              var plan := PlanProcesses(ids, ListDevices(dump).value, outputDir, Sessions.ShortId(uuid));
              var n := |r.error.running|;
              && n < |plan|
              && r.error.running == plan[..n]
              && host.spawnError(n) == Some(r.error.message)
              && forall k :: 0 <= k < n ==> host.spawnError(k).None?
  {
    var sid := Sessions.ShortId(uuid);
    if host.mkdirError.Some? then Failure(StartFailure(host.mkdirError.value, []))
    else
      match ListDevices(dump)
      case Failure(e) => Failure(StartFailure(e, []))
      case Success(devices) =>
        var plan := PlanProcesses(ids, devices, outputDir, sid);
        match SpawnFrom(plan, 0, host.spawnError)
        case Failure(f) =>
          assert plan[0..|f.running|] == plan[..|f.running|];
          Failure(f)
        case Success(ps) =>
          assert ps == plan[0..] == plan;
          Success(RecordingSession(sid, outputDir, ps, true))
  }

  /** A start whose second spawn raises leaves the first device's `pw-record`
      running outside any recording session. */
  lemma PartialStartLeavesProcess(ids: seq<int>, dump: PwDump, outputDir: string, uuid: string, host: Host)
    ensures host.mkdirError.None? && ListDevices(dump).Success? ==>
              var r := StartRecording(ids, dump, outputDir, uuid, host);
              var plan := PlanProcesses(ids, ListDevices(dump).value, outputDir, Sessions.ShortId(uuid));
              |plan| >= 2 && host.spawnError(0).None? && host.spawnError(1).Some? ==>
                r.Failure? && r.error.running == [plan[0]]
  {
    if host.mkdirError.None? && ListDevices(dump).Success? {
      var plan := PlanProcesses(ids, ListDevices(dump).value, outputDir, Sessions.ShortId(uuid));
      var r := StartRecording(ids, dump, outputDir, uuid, host);
      if |plan| >= 2 && host.spawnError(0).None? && host.spawnError(1).Some? {
        assert !AllSpawn(plan, host) by {
          assert host.spawnError(1).Some?;
        }
        var n := |r.error.running|;
        assert n != 0;
      }
    }
  }
}
