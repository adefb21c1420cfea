/** The WhisperX transcription engine: its configuration, the load/unload
    life cycle of its two model handles, and the conversion of the pipeline's
    raw segment dictionaries into transcript records. The pipeline itself
    (transcription, alignment, diarization) is an input: the raw segments it
    produced, or the message of what it raised. */
module WhisperEngine {
  import opened Wrappers
  import opened Text
  import opened Transcript

  /** A loaded model object; `id` stands for its identity. */
  datatype ModelHandle = ModelHandle(id: nat)

  datatype EngineConfig = EngineConfig(
    modelSize: string,
    device: string,
    computeType: string,
    batchSize: int,
    hfToken: string)

  /** The engine: its configuration and the speech and diarization models,
      present once loaded. */
  datatype Engine = Engine(config: EngineConfig, whisper: Option<ModelHandle>, diarize: Option<ModelHandle>)

  predicate IsLoaded(e: Engine) {
    e.whisper.Some?
  }

  /** The constructor. The requested device is kept only when CUDA is
      available, the requested compute type only on CUDA, and a missing or
      empty token falls back to the `HF_TOKEN` environment value. */
  function NewEngine(modelSize: string, device: string, computeType: string, batchSize: int,
                     hfToken: Option<string>, cudaAvailable: bool, envToken: Option<string>): (r: Engine)
    ensures !IsLoaded(r) && r.diarize.None?
    ensures r.config.modelSize == modelSize && r.config.batchSize == batchSize
    ensures !cudaAvailable ==> r.config.device == "cpu" && r.config.computeType == "int8"
    ensures cudaAvailable && device == "cuda" ==> r.config.device == "cuda" && r.config.computeType == computeType
    ensures r.config.device != "cuda" ==> r.config.computeType == "int8"
    ensures hfToken.Some? && hfToken.value != "" ==> r.config.hfToken == hfToken.value
    ensures (hfToken.None? || hfToken.value == "") ==> r.config.hfToken == envToken.GetOr("")
  {
    var dev := if cudaAvailable then device else "cpu";
    var ct := if dev == "cuda" then computeType else "int8";
    var token := if hfToken.Some? && hfToken.value != "" then hfToken.value else envToken.GetOr("");
    Engine(EngineConfig(modelSize, dev, ct, batchSize, token), None, None)
  }

  /** The constructor's defaults. */
  function DefaultEngine(cudaAvailable: bool, envToken: Option<string>): (r: Engine)
    ensures r.config.modelSize == "large-v2" && r.config.batchSize == 16
    ensures cudaAvailable ==> r.config.device == "cuda" && r.config.computeType == "float16"
    ensures !cudaAvailable ==> r.config.device == "cpu" && r.config.computeType == "int8"
  {
    NewEngine("large-v2", "cuda", "float16", 16, None, cudaAvailable, envToken)
  }

  /** `load`: nothing happens when the speech model is present; otherwise the
      loader's outcome either installs both models or is raised with the
      engine unchanged. */
  function Load(e: Engine, loader: Result<(ModelHandle, ModelHandle), string>): (r: Result<Engine, string>)
    ensures IsLoaded(e) ==> r == Success(e)
    ensures !IsLoaded(e) ==> (r.Success? <==> loader.Success?)
    ensures !IsLoaded(e) && loader.Failure? ==> r.error == loader.error
    ensures r.Success? ==> IsLoaded(r.value) && r.value.config == e.config
    ensures !IsLoaded(e) && r.Success? ==> r.value.whisper == Some(loader.value.0) && r.value.diarize == Some(loader.value.1)
  {
    if e.whisper.Some? then Success(e)
    else match loader
      case Failure(msg) => Failure(msg)
      case Success((w, d)) => Success(e.(whisper := Some(w), diarize := Some(d)))
  }

  /** Loading twice loads once: the second call keeps the models of the first,
      whatever a second loader would have produced. */
  lemma LoadIdempotent(e: Engine, loader: Result<(ModelHandle, ModelHandle), string>,
                       again: Result<(ModelHandle, ModelHandle), string>)
    requires Load(e, loader).Success?
    ensures Load(Load(e, loader).value, again) == Load(e, loader)
  {
  }

  /** `unload`: both models dropped. */
  function Unload(e: Engine): (r: Engine)
    ensures !IsLoaded(r) && r.diarize.None? && r.config == e.config
  {
    e.(whisper := None, diarize := None)
  }

  /** After an unload the next load installs what its loader produces. */
  lemma UnloadThenLoad(e: Engine, loader: Result<(ModelHandle, ModelHandle), string>)
    requires loader.Success?
    ensures Load(Unload(e), loader) == Success(e.(whisper := Some(loader.value.0), diarize := Some(loader.value.1)))
  {
  }

  // ---------------------------------------------------------------------------
  // Raw pipeline output
  // ---------------------------------------------------------------------------

  /** A word dictionary from the aligner: every key may be missing. */
  datatype RawWord = RawWord(word: Option<string>, start: Option<real>, end: Option<real>, score: Option<real>)

  /** A segment dictionary from the pipeline: every key may be missing. */
  datatype RawSegment = RawSegment(
    text: Option<string>,
    speaker: Option<string>,
    start: Option<real>,
    end: Option<real>,
    words: Option<seq<RawWord>>)

  function ConvertWord(w: RawWord): (r: WordSegment)
    requires w.word.Some?
    ensures r.word == w.word.value
    ensures r.start == (if w.start.Some? then w.start.value else 0.0)
    ensures r.end == (if w.end.Some? then w.end.value else 0.0)
    ensures r.score == (if w.score.Some? then w.score.value else 0.0)
  {
    WordSegment(w.word.value, w.start.GetOr(0.0), w.end.GetOr(0.0), w.score.GetOr(0.0))
  }

  /** The word list of a segment: entries without a `word` key are dropped,
      the others converted in order. */
  function ConvertWords(ws: seq<RawWord>): (r: seq<WordSegment>)
    ensures |r| <= |ws|
  {
    if ws == [] then []
    else
      var rest := ConvertWords(ws[1..]);
      if ws[0].word.Some? then [ConvertWord(ws[0])] + rest else rest
  }

  /** The conversion distributes over concatenation and treats each entry on
      its own: together these pin it down as "keep the entries with a word, in
      order". */
  lemma {:induction false} ConvertWordsAppend(a: seq<RawWord>, b: seq<RawWord>)
    ensures ConvertWords(a + b) == ConvertWords(a) + ConvertWords(b)
  {
    if a != [] {
      assert (a + b)[1..] == a[1..] + b;
      ConvertWordsAppend(a[1..], b);
    } else {
      assert a + b == b;
    }
  }

  lemma ConvertWordsSingle(w: RawWord)
    ensures ConvertWords([w]) == (if w.word.Some? then [ConvertWord(w)] else [])
  {
  }

  /** Every entry carrying a word is kept, so the count is exact. */
  function CountWords(ws: seq<RawWord>): nat {
    if ws == [] then 0 else (if ws[0].word.Some? then 1 else 0) + CountWords(ws[1..])
  }

  lemma {:induction false} ConvertWordsCount(ws: seq<RawWord>)
    ensures |ConvertWords(ws)| == CountWords(ws)
    ensures (forall i :: 0 <= i < |ws| ==> ws[i].word.Some?) ==> |ConvertWords(ws)| == |ws|
  {
    if ws != [] {
      ConvertWordsCount(ws[1..]);
    }
  }

  /** One transcript record per raw segment: stripped text, speaker defaulting
      to `UNKNOWN`, times to 0.0, and no word list when the key is missing. */
  function ConvertSegment(seg: RawSegment): (r: TranscriptSegment)
    ensures r.words.None? <==> seg.words.None?
    ensures r.speaker == (if seg.speaker.Some? then seg.speaker.value else "UNKNOWN")
    ensures seg.start.None? ==> r.start == 0.0
    ensures seg.end.None? ==> r.end == 0.0
    ensures seg.text.None? ==> r.text == ""
    ensures r.text == Strip(seg.text.GetOr(""))
    ensures seg.start.Some? ==> r.start == seg.start.value
    ensures seg.end.Some? ==> r.end == seg.end.value
    ensures seg.words.Some? ==> r.words == Some(ConvertWords(seg.words.value))
  {
    TranscriptSegment(
      Strip(seg.text.GetOr("")),
      seg.speaker.GetOr("UNKNOWN"),
      seg.start.GetOr(0.0),
      seg.end.GetOr(0.0),
      if seg.words.Some? then Some(ConvertWords(seg.words.value)) else None)
  }

  /** The segments `transcribe` yields, one per raw segment, in order. */
  function ConvertSegments(raw: seq<RawSegment>): (r: seq<TranscriptSegment>)
    ensures |r| == |raw|
    ensures forall i :: 0 <= i < |r| ==> r[i] == ConvertSegment(raw[i])
  {
    if raw == [] then [] else [ConvertSegment(raw[0])] + ConvertSegments(raw[1..])
  }

  /** A record as the pipeline would report it: every key present. */
  function ToRaw(s: TranscriptSegment): RawSegment {
    RawSegment(Some(s.text), Some(s.speaker), Some(s.start), Some(s.end),
               if s.words.Some? then Some(ToRawWords(s.words.value)) else None)
  }

  function ToRawWords(ws: seq<WordSegment>): (r: seq<RawWord>)
    ensures |r| == |ws|
    ensures forall i :: 0 <= i < |r| ==> r[i] == RawWord(Some(ws[i].word), Some(ws[i].start), Some(ws[i].end), Some(ws[i].score))
  {
    if ws == [] then [] else [RawWord(Some(ws[0].word), Some(ws[0].start), Some(ws[0].end), Some(ws[0].score))] + ToRawWords(ws[1..])
  }

  lemma {:induction false} ConvertToRawWords(ws: seq<WordSegment>)
    ensures ConvertWords(ToRawWords(ws)) == ws
  {
    if ws != [] {
      assert ToRawWords(ws)[1..] == ToRawWords(ws[1..]);
      ConvertToRawWords(ws[1..]);
    }
  }

  /** Converting the full dictionary of a record whose text is already
      stripped gives the record back. */
  lemma ConvertToRaw(s: TranscriptSegment)
    requires Strip(s.text) == s.text
    ensures ConvertSegment(ToRaw(s)) == s
  {
    if s.words.Some? {
      ConvertToRawWords(s.words.value);
    }
  }

  /** Converted text is always stripped, so converting a converted record's
      dictionary changes nothing. */
  lemma ConvertStable(seg: RawSegment)
    ensures ConvertSegment(ToRaw(ConvertSegment(seg))) == ConvertSegment(seg)
  {
    StripCharsIdempotent(seg.text.GetOr(""), Whitespace);
    ConvertToRaw(ConvertSegment(seg));
  }

  /** `transcribe`: load first when needed (a failed load is raised), then run
      the pipeline with the loaded engine and convert what it returns. */
  function Transcribe(e: Engine, loader: Result<(ModelHandle, ModelHandle), string>,
                      pipeline: Engine -> Result<seq<RawSegment>, string>): (r: Result<(seq<TranscriptSegment>, Engine), string>)
    ensures r.Success? ==> Load(e, loader).Success? && IsLoaded(r.value.1) && r.value.1 == Load(e, loader).value
    ensures IsLoaded(e) ==> (r.Success? <==> pipeline(e).Success?)
    ensures r.Success? <==> Load(e, loader).Success? && pipeline(Load(e, loader).value).Success?
    ensures r.Success? ==> pipeline(r.value.1).Success? && |r.value.0| == |pipeline(r.value.1).value|
    ensures r.Success? ==> r.value.0 == ConvertSegments(pipeline(r.value.1).value)
    ensures Load(e, loader).Success? && pipeline(Load(e, loader).value).Failure? ==>
              r == Failure(pipeline(Load(e, loader).value).error)
    ensures !IsLoaded(e) && loader.Failure? ==> r == Failure(loader.error)
  {
    match Load(e, loader)
    case Failure(msg) => Failure(msg)
    case Success(e1) =>
      match pipeline(e1)
      case Failure(msg) => Failure(msg)
      case Success(raw) => Success((ConvertSegments(raw), e1))
  }

  /** The full dictionaries of a list of records. */
  function ToRawAll(ss: seq<TranscriptSegment>): (r: seq<RawSegment>)
    ensures |r| == |ss|
    ensures forall i :: 0 <= i < |r| ==> r[i] == ToRaw(ss[i])
  {
    if ss == [] then [] else [ToRaw(ss[0])] + ToRawAll(ss[1..])
  }

  /** When the pipeline reports records with stripped text as full
      dictionaries, `transcribe` yields exactly those records, in order. */
  lemma TranscribeRoundTrip(e: Engine, loader: Result<(ModelHandle, ModelHandle), string>,
                            pipeline: Engine -> Result<seq<RawSegment>, string>, ss: seq<TranscriptSegment>)
    requires Load(e, loader).Success?
    requires pipeline(Load(e, loader).value) == Success(ToRawAll(ss))
    requires forall i :: 0 <= i < |ss| ==> Strip(ss[i].text) == ss[i].text
    ensures Transcribe(e, loader, pipeline) == Success((ss, Load(e, loader).value))
  {
    ConvertToRawAll(ss);
  }

  /** Converting the full dictionaries of records with stripped text gives the
      records back. */
  lemma {:induction false} ConvertToRawAll(ss: seq<TranscriptSegment>)
    requires forall i :: 0 <= i < |ss| ==> Strip(ss[i].text) == ss[i].text
    ensures ConvertSegments(ToRawAll(ss)) == ss
  {
    if ss != [] {
      ConvertToRaw(ss[0]);
      assert ToRawAll(ss)[1..] == ToRawAll(ss[1..]);
      ConvertToRawAll(ss[1..]);
    }
  }
}
