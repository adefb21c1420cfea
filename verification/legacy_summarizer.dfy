/** The legacy summarizer: the prompt it builds from a transcript, its routing
    between a local Ollama server and OpenAI, and the extraction-based summary
    it falls back on when neither answers. The two HTTP exchanges are inputs:
    what the server replied, or that the request raised. */
module LegacySummarizer {
  import opened Wrappers
  import opened Text
  import opened Segments
  import LegacySession

  // ---------------------------------------------------------------------------
  // The prompt
  // ---------------------------------------------------------------------------

  /** `speaker: text`. */
  function SegmentLine(s: Segment): string {
    s.speaker + ": " + s.text
  }

  function SegmentLines(ts: seq<Segment>): (r: seq<string>)
    ensures |r| == |ts|
    ensures forall i :: 0 <= i < |r| ==> r[i] == SegmentLine(ts[i])
  {
    if ts == [] then [] else [SegmentLine(ts[0])] + SegmentLines(ts[1..])
  }

  /** The transcript as the prompt shows it: one line per segment. */
  function FullText(ts: seq<Segment>): string {
    Join("\n", SegmentLines(ts))
  }

  /** Transcripts with fewer words than this get a detailed summary. */
  const DetailedBelow: int := 1000

  function DetailLevel(fullText: string): (r: string)
    ensures r == "detailed" <==> |Split(fullText)| < DetailedBelow
    ensures r == "detailed" || r == "concise"
  {
    if |Split(fullText)| < DetailedBelow then "detailed" else "concise"
  }

  const Intro: string :=
    "You are an expert meeting summarizer tasked with creating a clear, structured, and informative summary of the following conversation transcript."

  /** The prompt lines before the transcript: an introduction, a blank line
      and the start marker. */
  function Head(intro: string): (r: seq<string>)
    ensures |r| == 3 && r[2] == "TRANSCRIPT:"
  {
    [intro, "", "TRANSCRIPT:"]
  }

  /** The prompt lines after the third numbered instruction's header, up to
      the closing newline. */
  const InstructionBody: seq<string> := [
    "   - OVERVIEW: A 2-3 sentence high-level summary of the conversation",
    "   - KEY TOPICS: List the main topics discussed with bullet points for each topic",
    "   - DECISIONS & CONCLUSIONS: Note any decisions made or conclusions reached, with speaker attribution",
    "   - ACTION ITEMS: List specific tasks, responsibilities, deadlines mentioned (if any)",
    "",
    "2. Format requirements:",
    "   - Use markdown formatting with headers (##) for each section",
    "   - Use bullet points for lists",
    "   - Bold (**Speaker Name**) when attributing statements or actions to specific speakers",
    "   - Keep the summary focused and relevant, avoiding unnecessary details",
    "",
    "3. Focus on accuracy and objectivity:",
    "   - Maintain the original meaning without adding your own interpretations",
    "   - Preserve important technical terms and language used by speakers",
    "   - If speakers disagree on a topic, clearly present both viewpoints with proper attribution",
    "",
    "4. Use this exact structure for your response:",
    "",
    "## Overview",
    "[2-3 sentence summary]",
    "",
    "## Key Topics",
    "- [Topic 1]",
    "  - [Important point]",
    "  - [Important point]",
    "- [Topic 2]",
    "  - [Important point]",
    "  - [Important point]",
    "",
    "## Decisions & Conclusions",
    "- [Decision 1] (by **Speaker Name**)",
    "- [Decision 2] (agreed by **Speaker A** and **Speaker B**)",
    "",
    "## Action Items",
    "- **Speaker Name** will [action] by [deadline if mentioned]",
    "- [Action item] (owner not specified)",
    "",
    "If any section would be empty, include the heading but state \"None identified in the transcript.\"",
    ""]

  /** The prompt lines after the transcript. */
  function InstructionLines(detail: string): (r: seq<string>)
    ensures |r| >= 2 && r[0] == "" && r[1] == "INSTRUCTIONS:"
  {
    ["", "INSTRUCTIONS:", "1. Create a " + detail + " summary organized into these clearly labeled sections:"]
    + InstructionBody
  }

  /** A transcript's lines between the head and the given closing lines, one
      per line. */
  function PromptAround(intro: string, ts: seq<Segment>, after: seq<string>): string {
    Join("\n", Head(intro) + SegmentLines(ts) + after)
  }

  /** The prompt: the introduction, the transcript and the instructions for
      its detail level. */
  function Prompt(ts: seq<Segment>): string {
    PromptAround(Intro, ts, InstructionLines(DetailLevel(FullText(ts))))
  }

  /** The prompt is the transcript text set between the head and the
      instructions, each joined to it by a newline. */
  lemma PromptText(ts: seq<Segment>)
    requires ts != []
    ensures Prompt(ts) == Join("\n", Head(Intro)) + "\n" + FullText(ts) + "\n"
                          + Join("\n", InstructionLines(DetailLevel(FullText(ts))))
  {
    var seg := SegmentLines(ts);
    var instr := InstructionLines(DetailLevel(FullText(ts)));
    JoinAppend("\n", Head(Intro) + seg, instr);
    JoinAppend("\n", Head(Intro), seg);
  }

  // ---------------------------------------------------------------------------
  // Routing
  // ---------------------------------------------------------------------------

  /** Python's truthiness of the optional API key. */
  predicate IsSet(key: Option<string>) {
    key.Some? && key.value != ""
  }

  /** What the Ollama server did: the request raised, or it answered with a
      status code and a body that may lack the `response` key. */
  datatype OllamaReply = OllamaRaised | OllamaAnswered(status: int, response: Option<string>)

  predicate OllamaUsable(reply: OllamaReply) {
    reply.OllamaAnswered? && reply.status == 200 && reply.response.Some?
  }

  const NoKeyMessage: string := "OpenAI API key not configured"

  /** `_summarize_with_openai`: refused without a key; a failure of the
      request becomes an error message rather than an exception. */
  function OpenAIPath(apiKey: Option<string>, reply: Result<string, string>): (r: string)
    ensures !IsSet(apiKey) ==> r == NoKeyMessage
    ensures IsSet(apiKey) && reply.Success? ==> r == reply.value
    ensures IsSet(apiKey) && reply.Failure? ==> r == "Error generating summary with OpenAI: " + reply.error
  {
    if !IsSet(apiKey) then NoKeyMessage
    else match reply
      case Success(content) => content
      case Failure(e) => "Error generating summary with OpenAI: " + e
  }

  /** `summarize_transcript`. A usable Ollama answer is returned as is; any
      other outcome, raised or not, falls back to OpenAI when a key is set
      and to the extraction-based summary otherwise. Providers other than
      Ollama go to OpenAI directly. */
  function SummarizeTranscript(provider: string, apiKey: Option<string>, ts: seq<Segment>,
                               ollama: OllamaReply, openai: Result<string, string>): (r: string)
    ensures ts == [] ==> r == LegacySession.NoTranscript
    ensures ts != [] && provider != "ollama" ==> r == OpenAIPath(apiKey, openai)
    ensures ts != [] && provider == "ollama" && OllamaUsable(ollama) ==> r == ollama.response.value
    ensures ts != [] && provider == "ollama" && !OllamaUsable(ollama) ==>
              r == if IsSet(apiKey) then OpenAIPath(apiKey, openai) else SimpleSummary(Prompt(ts))
  {
    if ts == [] then LegacySession.NoTranscript
    else
      var prompt := Prompt(ts);
      if provider == "ollama" then
        if OllamaUsable(ollama) then ollama.response.value
        else if IsSet(apiKey) then OpenAIPath(apiKey, openai)
        else SimpleSummary(prompt)
      else OpenAIPath(apiKey, openai)
  }

  // ---------------------------------------------------------------------------
  // The fallback summary
  // ---------------------------------------------------------------------------

  /** How the fallback's scan reads a prompt line, by its stripped text. */
  datatype LineKind = StartLine | StopLine | BlankLine | TextLine

  function KindOf(line: string): LineKind {
    var t := Strip(line);
    if t == "TRANSCRIPT:" then StartLine
    else if t == "INSTRUCTIONS:" || StartsWith(t, "1. Create") then StopLine
    else if t == [] then BlankLine
    else TextLine
  }

  /** The scan over the prompt's lines, each read as `kind` says: a start
      marker opens the transcript (again), a stop marker ends the scan, and
      while open every text line is kept. The fallback reads lines with
      `KindOf`; the scan's laws hold for any reading. */
  function Collect(kind: string -> LineKind, lines: seq<string>, inside: bool): (r: seq<string>)
    ensures |r| <= |lines|
  {
    if lines == [] then []
    else match kind(lines[0])
      case StartLine => Collect(kind, lines[1..], true)
      case StopLine => []
      case BlankLine => Collect(kind, lines[1..], inside)
      case TextLine => (if inside then [lines[0]] else []) + Collect(kind, lines[1..], inside)
  }

  /** Every line kept is a text line of the input. */
  lemma {:induction false} CollectKeepsText(kind: string -> LineKind, lines: seq<string>, inside: bool)
    ensures forall i :: 0 <= i < |Collect(kind, lines, inside)| ==>
              kind(Collect(kind, lines, inside)[i]) == TextLine && Collect(kind, lines, inside)[i] in lines
  {
    if lines != [] {
      CollectKeepsText(kind, lines[1..], inside);
      CollectKeepsText(kind, lines[1..], true);
    }
  }

  /** Text lines pass straight through an open scan. */
  lemma {:induction false} CollectPlain(kind: string -> LineKind, xs: seq<string>, rest: seq<string>)
    requires forall i :: 0 <= i < |xs| ==> kind(xs[i]) == TextLine
    ensures Collect(kind, xs + rest, true) == xs + Collect(kind, rest, true)
  {
    if xs != [] {
      var all := xs + rest;
      assert all[0] == xs[0] && all[1..] == xs[1..] + rest;
      CollectPlain(kind, xs[1..], rest);
      assert [xs[0]] + xs[1..] == xs;
    } else {
      assert xs + rest == rest;
    }
  }

  lemma MarkerKinds()
    ensures KindOf("") == BlankLine
    ensures KindOf("TRANSCRIPT:") == StartLine
    ensures KindOf("INSTRUCTIONS:") == StopLine
  {
    assert Strip("") == "";
    StripNoop("TRANSCRIPT:");
    StripNoop("INSTRUCTIONS:");
  }

  /** Stripping leaves a string alone when both its ends are non-space. */
  lemma StripNoop(s: string)
    requires s != [] && !IsSpace(s[0]) && !IsSpace(s[|s| - 1])
    ensures Strip(s) == s
  {
    SkipLeftNoop(s, Whitespace);
    SkipRightNoop(s, Whitespace, 0);
    assert s[0..|s|] == s;
  }

  /** A segment line is never blank: it holds the colon after the speaker. */
  lemma SegmentLineNotBlank(s: Segment)
    ensures KindOf(SegmentLine(s)) != BlankLine
  {
    var l := SegmentLine(s);
    assert l[|s.speaker|] == ':';
    assert !AllIn(l, Whitespace);
  }

  lemma SegmentLinesAreText(ts: seq<Segment>)
    requires forall i :: 0 <= i < |ts| ==> PlainLine(ts[i])
    ensures forall i :: 0 <= i < |SegmentLines(ts)| ==> KindOf(SegmentLines(ts)[i]) == TextLine
  {
    forall i | 0 <= i < |ts| ensures KindOf(SegmentLines(ts)[i]) == TextLine {
      SegmentLineNotBlank(ts[i]);
    }
  }

  /** A segment line the scan can take at face value: on one line, and not
      reading as a marker. */
  predicate PlainLine(s: Segment) {
    '\n' !in SegmentLine(s) && KindOf(SegmentLine(s)) != StartLine && KindOf(SegmentLine(s)) != StopLine
  }

  /** The lines the fallback recovers from a prompt. */
  function TranscriptLinesOf(prompt: string): seq<string> {
    Collect(KindOf, SplitOn(prompt, '\n'), false)
  }

  /** What the round trip needs of the fixed text around the transcript: no
      line of it spans a newline, the introduction is no marker, and the
      closing lines open with a blank line and the stop marker. */
  predicate Frames(intro: string, after: seq<string>) {
    '\n' !in intro && KindOf(intro) != StartLine && KindOf(intro) != StopLine
    && |after| >= 2 && after[0] == "" && after[1] == "INSTRUCTIONS:"
    && forall k :: 0 <= k < |after| ==> '\n' !in after[k]
  }

  lemma HeadFree(intro: string)
    requires '\n' !in intro
    ensures forall i :: 0 <= i < |Head(intro)| ==> '\n' !in Head(intro)[i]
  {
    assert '\n' !in "TRANSCRIPT:";
  }

  lemma LinesFree(a: seq<string>, b: seq<string>, c: seq<string>)
    requires forall i :: 0 <= i < |a| ==> '\n' !in a[i]
    requires forall i :: 0 <= i < |b| ==> '\n' !in b[i]
    requires forall i :: 0 <= i < |c| ==> '\n' !in c[i]
    ensures forall i :: 0 <= i < |a + b + c| ==> '\n' !in (a + b + c)[i]
  {
  }

  /** No line of the prompt holds a newline of its own, so splitting the
      prompt on newlines gives its lines back. */
  lemma PromptSplits(intro: string, ts: seq<Segment>, after: seq<string>)
    requires '\n' !in intro
    requires forall k :: 0 <= k < |after| ==> '\n' !in after[k]
    requires forall i :: 0 <= i < |ts| ==> '\n' !in SegmentLine(ts[i])
    ensures SplitOn(PromptAround(intro, ts, after), '\n') == Head(intro) + SegmentLines(ts) + after
  {
    var seg := SegmentLines(ts);
    var head := Head(intro);
    var lines := head + seg + after;
    HeadFree(intro);
    assert forall i :: 0 <= i < |seg| ==> '\n' !in seg[i];
    LinesFree(head, seg, after);
    SplitOnJoin(lines, '\n');
    assert PromptAround(intro, ts, after) == Join(['\n'], lines);
  }

  /** The scan skips the head and opens at its start marker. */
  lemma HeadSkipped(kind: string -> LineKind, intro: string, rest: seq<string>)
    requires kind(intro) != StartLine && kind(intro) != StopLine
    requires kind("") == BlankLine && kind("TRANSCRIPT:") == StartLine
    ensures Collect(kind, Head(intro) + rest, false) == Collect(kind, rest, true)
  {
    var lines := Head(intro) + rest;
    assert lines[0] == intro && lines[1..] == ["", "TRANSCRIPT:"] + rest;
    assert Collect(kind, lines, false) == Collect(kind, lines[1..], false);
    assert lines[1..][1..] == ["TRANSCRIPT:"] + rest;
    assert Collect(kind, lines[1..], false) == Collect(kind, lines[1..][1..], false);
    assert lines[1..][1..][1..] == rest;
  }

  /** The scan stops at the instructions. */
  lemma InstructionsStop(kind: string -> LineKind, after: seq<string>)
    requires kind("") == BlankLine && kind("INSTRUCTIONS:") == StopLine
    requires |after| >= 2 && after[0] == "" && after[1] == "INSTRUCTIONS:"
    ensures Collect(kind, after, true) == []
  {
    assert Collect(kind, after, true) == Collect(kind, after[1..], true);
    assert after[1..][0] == "INSTRUCTIONS:";
  }

  /** Read back from a prompt built around a transcript, the fallback finds
      exactly the transcript's lines, in order: the head is skipped up to
      the start marker and the scan stops at the instructions. */
  lemma PromptRoundTrip(intro: string, ts: seq<Segment>, after: seq<string>)
    requires Frames(intro, after)
    requires forall i :: 0 <= i < |ts| ==> PlainLine(ts[i])
    ensures TranscriptLinesOf(PromptAround(intro, ts, after)) == SegmentLines(ts)
  {
    PromptSplits(intro, ts, after);
    MarkerKinds();
    SegmentLinesAreText(ts);
    ScanRoundTrip(KindOf, intro, SegmentLines(ts), after);
  }

  /** The scan over head, text lines and instructions yields the text lines. */
  lemma ScanRoundTrip(kind: string -> LineKind, intro: string, seg: seq<string>, after: seq<string>)
    requires kind(intro) != StartLine && kind(intro) != StopLine
    requires kind("") == BlankLine && kind("TRANSCRIPT:") == StartLine && kind("INSTRUCTIONS:") == StopLine
    requires |after| >= 2 && after[0] == "" && after[1] == "INSTRUCTIONS:"
    requires forall i :: 0 <= i < |seg| ==> kind(seg[i]) == TextLine
    ensures Collect(kind, Head(intro) + seg + after, false) == seg
  {
    var all := Head(intro) + seg + after;
    assert all == Head(intro) + (seg + after);
    HeadSkipped(kind, intro, seg + after);
    CollectPlain(kind, seg, after);
    InstructionsStop(kind, after);
    assert Collect(kind, all, false) == Collect(kind, seg + after, true);
    assert Collect(kind, seg + after, true) == seg + [];
    assert seg + [] == seg;
  }

  /** The collected lines, each followed by a newline. */
  function Concat(lines: seq<string>): string {
    if lines == [] then "" else lines[0] + "\n" + Concat(lines[1..])
  }

  /** The candidate lines: the collected text, stripped and split again. */
  function RawLines(prompt: string): seq<string> {
    SplitOn(Strip(Concat(TranscriptLinesOf(prompt))), '\n')
  }

  /** Keeps the first line for each key not already in `seen`, dropping
      lines whose key is empty. The fallback keys lines by their stripped
      text. */
  function Unique(key: string -> string, lines: seq<string>, seen: set<string>): (r: seq<string>)
    ensures |r| <= |lines|
    ensures forall i :: 0 <= i < |r| ==> r[i] in lines && key(r[i]) != "" && key(r[i]) !in seen
    ensures forall i, j :: 0 <= i < j < |r| ==> key(r[i]) != key(r[j])
  {
    if lines == [] then []
    else
      var t := key(lines[0]);
      if t != "" && t !in seen then [lines[0]] + Unique(key, lines[1..], seen + {t})
      else Unique(key, lines[1..], seen)
  }

  /** Every line with a non-empty key not yet seen is represented by a kept
      line with the same key. */
  lemma {:induction false} UniqueComplete(key: string -> string, lines: seq<string>, seen: set<string>, i: nat)
    requires i < |lines| && key(lines[i]) != "" && key(lines[i]) !in seen
    ensures exists j :: 0 <= j < |Unique(key, lines, seen)| && key(Unique(key, lines, seen)[j]) == key(lines[i])
  {
    var t := key(lines[0]);
    var r := Unique(key, lines, seen);
    if i == 0 {
      assert r[0] == lines[0];
    } else if t != "" && t !in seen {
      if key(lines[i]) == t {
        assert r[0] == lines[0];
      } else {
        var rest := Unique(key, lines[1..], seen + {t});
        assert lines[1..][i - 1] == lines[i];
        UniqueComplete(key, lines[1..], seen + {t}, i - 1);
        var j :| 0 <= j < |rest| && key(rest[j]) == key(lines[i]);
        assert r[j + 1] == rest[j];
      }
    } else {
      assert lines[1..][i - 1] == lines[i];
      UniqueComplete(key, lines[1..], seen, i - 1);
    }
  }

  /** The speaker of a line: its stripped text before the first colon. */
  function LineSpeaker(line: string): string
    requires ':' in line
  {
    Strip(line[..IndexOf(line, ':')])
  }

  /** A segment's line reports the segment's speaker, stripped, as long as
      the speaker label holds no colon of its own. */
  lemma SegmentLineSpeaker(s: Segment)
    requires ':' !in s.speaker
    ensures ':' in SegmentLine(s)
    ensures LineSpeaker(SegmentLine(s)) == Strip(s.speaker)
  {
    var l := SegmentLine(s);
    assert l[|s.speaker|] == ':';
    assert l[..|s.speaker|] == s.speaker;
    assert ':' !in l[..|s.speaker|];
  }

  function Speakers(lines: seq<string>): set<string> {
    set i | 0 <= i < |lines| && ':' in lines[i] :: LineSpeaker(lines[i])
  }

  /** Up to three samples: the first, the middle and the last line. */
  function Samples(u: seq<string>): (r: seq<string>)
    ensures |r| == if |u| < 3 then |u| else 3
    ensures |r| >= 1 ==> r[0] == u[0]
    ensures |r| >= 2 ==> r[1] == u[|u| / 2]
    ensures |r| == 3 ==> r[2] == u[|u| - 1]
  {
    if |u| == 0 then []
    else if |u| == 1 then [u[0]]
    else if |u| == 2 then [u[0], u[1]]
    else [u[0], u[|u| / 2], u[|u| - 1]]
  }

  /** At most this many words of a sample make its topic. */
  const TopicWords: nat := 10

  /** The text of a line after its first colon, stripped. */
  function Content(line: string): string
    requires ':' in line
  {
    Strip(line[IndexOf(line, ':') + 1..])
  }

  /** The first words of a text, at most ten. */
  function FirstWords(content: string): (r: seq<string>)
    ensures |r| <= TopicWords
  {
    var words := Split(content);
    if |words| < TopicWords then words else words[..TopicWords]
  }

  /** A sample's topic: the first words of its text after the first colon;
      none when there is no colon or no text. */
  function Topic(sample: string): Option<string> {
    if ':' !in sample || Content(sample) == "" then None
    else Some(Join(" ", FirstWords(Content(sample))))
  }

  /** A topic reads back as at most ten words, and they are the first words
      of the sample's text. */
  lemma TopicIsPrefix(sample: string)
    requires Topic(sample).Some?
    ensures Split(Topic(sample).value) == FirstWords(Content(sample))
    ensures Split(Content(sample))[..|FirstWords(Content(sample))|] == FirstWords(Content(sample))
  {
    var ws := FirstWords(Content(sample));
    assert forall i :: 0 <= i < |ws| ==> ws[i] in Split(Content(sample));
    SplitJoin(ws);
  }

  function TopicLines(samples: seq<string>): string {
    if samples == [] then ""
    else
      var rest := TopicLines(samples[1..]);
      match Topic(samples[0])
      case Some(t) => "- " + t + "...\n" + rest
      case None => rest
  }

  const FallbackTail: string :=
    "\n## Decisions & Conclusions\nNone identified (automatic fallback summary).\n\n"
    + "## Action Items\nNone identified (automatic fallback summary).\n\n"
    + "\n---\n*Note: This is a simplified fallback summary generated because the LLM service was unavailable.*"

  lemma Framed(head: string, body: string, tail: string)
    ensures StartsWith(head + body + tail, head)
    ensures EndsWith(head + body + tail, tail)
  {
    var r := head + body + tail;
    assert r[..|head|] == head;
    assert r[|r| - |tail|..] == tail;
  }

  /** `_generate_simple_summary`: the overview with the speaker count, the
      topics of the samples, and the fixed closing sections. */
  function SimpleSummary(prompt: string): (r: string)
    ensures StartsWith(r, "## Overview\n")
    ensures EndsWith(r, FallbackTail)
  {
    var u := Unique(Strip, RawLines(prompt), {});
    var body := "This conversation includes " + NatToString(|Speakers(u)|)
                + " speaker(s) discussing various topics.\n\n" + "## Key Topics\n" + TopicLines(Samples(u));
    Framed("## Overview\n", body, FallbackTail);
    "## Overview\n" + body + FallbackTail
  }
}
