/** Prompt selection and the transcript text handed to a summarization model. */
module Prompts {
  import opened Wrappers
  import opened Text
  import opened Transcript

  const SystemPrompt: string :=
    "You are a meeting summarizer. Given a transcript with speaker labels and timestamps, "
    + "produce a clear, well-organized summary in markdown format.\n"
    + "\n"
    + "Include:\n"
    + "- **Key Discussion Points**: Main topics discussed\n"
    + "- **Decisions Made**: Any decisions or agreements reached\n"
    + "- **Action Items**: Tasks assigned, with the responsible person if identifiable\n"
    + "- **Notable Quotes**: Important statements worth highlighting (optional)\n"
    + "\n"
    + "Guidelines:\n"
    + "- Use speaker labels (e.g., SPEAKER_00) as-is; do not invent real names\n"
    + "- Be concise but comprehensive\n"
    + "- Use bullet points for readability\n"
    + "- If the transcript is short or trivial, keep the summary proportionally brief\n"

  const CompactSystemPrompt: string :=
    "You are a meeting summarizer. Given a short transcript, produce a brief summary "
    + "in markdown with key points and any action items. Be concise.\n"

  /** Transcripts shorter than this many segments get the compact prompt. */
  const CompactBelow: int := 10

  /** `get_system_prompt`: the compact prompt exactly for short transcripts. */
  function GetSystemPrompt(segmentCount: int): (r: string)
    ensures r == CompactSystemPrompt <==> segmentCount < CompactBelow
    ensures r == SystemPrompt || r == CompactSystemPrompt
  {
    assert |CompactSystemPrompt| != |SystemPrompt|;
    if segmentCount < CompactBelow then CompactSystemPrompt else SystemPrompt
  }

  /** One prompt line: `[MM:SS] speaker: text`, the speaker defaulting to
      `UNKNOWN`, the start to 0 and the text to empty, the text stripped. A
      speaker without ':' reads back from the line. */
  function PromptLine(d: SegmentDict): (r: string)
    ensures |r| >= 8 && r[0] == '['
    ensures ':' !in d.speaker.GetOr("UNKNOWN") ==>
              ReadLine(r, "[", ": ") ==
              Some((Timecode(d.start.GetOr(0.0)), d.speaker.GetOr("UNKNOWN"), Strip(d.text.GetOr(""))))
  {
    TimecodeChars(StartOf(d));
    ReadLineOf("[", Timecode(StartOf(d)), SpeakerOf(d), ": ", TextOf(d));
    "[" + Timecode(StartOf(d)) + "] " + SpeakerOf(d) + ": " + TextOf(d)
  }

  function PromptLines(segs: seq<SegmentDict>): (r: seq<string>)
    ensures |r| == |segs|
    ensures forall i :: 0 <= i < |r| ==> r[i] == PromptLine(segs[i])
  {
    seq(|segs|, i requires 0 <= i < |segs| => PromptLine(segs[i]))
  }

  /** `format_transcript_for_llm`: the lines joined by newlines, with no
      trailing newline. */
  function FormatTranscript(segs: seq<SegmentDict>): (r: string)
    ensures segs == [] <==> r == ""
  {
    var lines := PromptLines(segs);
    if segs == [] then Join("\n", lines)
    else
      JoinNonEmpty(lines);
      Join("\n", lines)
  }

  lemma {:induction false} JoinNonEmpty(xs: seq<string>)
    requires xs != [] && xs[0] != []
    ensures Join("\n", xs) != []
  {
    if |xs| > 1 {
      assert Join("\n", xs) == xs[0] + "\n" + Join("\n", xs[1..]);
    }
  }

  /** Reading the prompt text back line by line gives one line per segment,
      in order, as long as no speaker or text holds a newline of its own. */
  lemma FormatTranscriptLines(segs: seq<SegmentDict>)
    requires segs != []
    requires forall i :: 0 <= i < |segs| ==> '\n' !in SpeakerOf(segs[i]) && '\n' !in TextOf(segs[i])
    ensures SplitOn(FormatTranscript(segs), '\n') == PromptLines(segs)
  {
    var lines := PromptLines(segs);
    forall i | 0 <= i < |lines|
      ensures '\n' !in lines[i]
    {
      LineFree(segs[i]);
    }
    assert FormatTranscript(segs) == Join(['\n'], lines);
    SplitOnJoin(lines, '\n');
  }

  /** Each line of the prompt text reads back as its segment's time code,
      speaker and stripped text, in segment order. */
  lemma FormatTranscriptReadsBack(segs: seq<SegmentDict>, i: nat)
    requires i < |segs|
    requires forall k :: 0 <= k < |segs| ==> '\n' !in SpeakerOf(segs[k]) && '\n' !in TextOf(segs[k])
    requires ':' !in SpeakerOf(segs[i])
    ensures var lines := SplitOn(FormatTranscript(segs), '\n');
            |lines| == |segs| &&
            ReadLine(lines[i], "[", ": ") == Some((Timecode(StartOf(segs[i])), SpeakerOf(segs[i]), TextOf(segs[i])))
  {
    FormatTranscriptLines(segs);
  }

  lemma LineFree(d: SegmentDict)
    requires '\n' !in SpeakerOf(d) && '\n' !in TextOf(d)
    ensures '\n' !in PromptLine(d)
  {
    TimecodeChars(StartOf(d));
  }

  /** A segment dictionary with no keys prints as an `UNKNOWN` line at 00:00
      with empty text. */
  lemma EmptyDictLine(d: SegmentDict)
    requires d.speaker.None? && d.start.None? && d.text.None?
    ensures PromptLine(d) == "[00:00] UNKNOWN: "
  {
    var line := PromptLine(d);
    assert line == "[" + Timecode(StartOf(d)) + "] " + SpeakerOf(d) + ": " + TextOf(d);
    TimecodeZero();
    EmptyDictFields(d);
    assert line == "[" + "00:00" + "] " + "UNKNOWN" + ": " + "";
    LiteralLine();
  }

  lemma LiteralLine()
    ensures "[" + "00:00" + "] " + "UNKNOWN" + ": " + "" == "[00:00] UNKNOWN: "
  {
  }

  lemma EmptyDictFields(d: SegmentDict)
    requires d.speaker.None? && d.start.None? && d.text.None?
    ensures SpeakerOf(d) == "UNKNOWN"
    ensures StartOf(d) == 0.0
    ensures TextOf(d) == ""
  {
    assert Strip("") == [];
  }

  lemma TimecodeZero()
    ensures Timecode(0.0) == "00:00"
  {
    assert Minutes(0.0) == 0;
    assert Seconds(0.0) == 0;
    assert Pad2(0) == "00";
  }
}
