/** The Obsidian meeting note: YAML frontmatter, a title, and the summary,
    participants, notes and transcript sections, each present only when it
    has content. The rendered date is an input. */
module MeetingNote {
  import opened Wrappers
  import opened Text
  import opened Transcript
  import Lists

  /** `"p1", "p2"`: each participant double-quoted, joined by a comma. */
  function QuotedList(participants: seq<string>): string {
    Join(", ", Quoted(participants))
  }

  function Quoted(ps: seq<string>): (r: seq<string>)
    ensures |r| == |ps|
    ensures forall i :: 0 <= i < |r| ==> r[i] == "\"" + ps[i] + "\""
  {
    if ps == [] then [] else ["\"" + ps[0] + "\""] + Quoted(ps[1..])
  }

  /** The frontmatter's lines: the two `---` fences around one `key: value`
      line per field, the participants as a bracketed list of quoted names. */
  function FrontmatterLines(title: string, date: string, participants: seq<string>): seq<string> {
    ["---", "title: \"" + title + "\"", "date: " + date, "type: meeting-note", "source: mnemosyne",
     "participants: [" + QuotedList(participants) + "]", "tags: [meeting, mnemosyne]", "---"]
  }

  /** The frontmatter block: its lines joined by newlines, which is the
      source's multi-line f-string. Read line by line it gives back the
      fields, the participants line holding each name double-quoted and joined
      by ", ", as long as no field holds a newline. */
  function Frontmatter(title: string, date: string, participants: seq<string>): (r: string)
    ensures StartsWith(r, "---\ntitle: \"" + title + "\"\n")
    ensures EndsWith(r, "\ntags: [meeting, mnemosyne]\n---")
    ensures '\n' !in title && '\n' !in date && '\n' !in QuotedList(participants) ==>
              SplitOn(r, '\n') == FrontmatterLines(title, date, participants)
  {
    var ls := FrontmatterLines(title, date, participants);
    FrontmatterEnds(title, date, participants);
    if '\n' !in title && '\n' !in date && '\n' !in QuotedList(participants) then
      FrontmatterSplits(title, date, participants);
      Join("\n", ls)
    else Join("\n", ls)
  }

  /** The joined lines open with the fence and the title and close with the
      tags and the fence. */
  lemma FrontmatterEnds(title: string, date: string, participants: seq<string>)
    ensures var r := Join("\n", FrontmatterLines(title, date, participants));
            StartsWith(r, "---\ntitle: \"" + title + "\"\n") && EndsWith(r, "\ntags: [meeting, mnemosyne]\n---")
  {
    var t := "title: \"" + title + "\"";
    JoinEightEnds("---", t, "date: " + date, "type: meeting-note", "source: mnemosyne",
                  "participants: [" + QuotedList(participants) + "]", "tags: [meeting, mnemosyne]", "---");
    var r := Join("\n", FrontmatterLines(title, date, participants));
    var head := "---" + "\n" + t + "\n";
    assert StartsWith(r, head);
    assert head == "---\ntitle: \"" + title + "\"\n";
    var tail := "\n" + "tags: [meeting, mnemosyne]" + "\n" + "---";
    TagsTail();
    assert EndsWith(r, tail);
  }

  lemma TagsTail()
    ensures "\n" + "tags: [meeting, mnemosyne]" + "\n" + "---" == "\ntags: [meeting, mnemosyne]\n---"
  {
  }

  /** Eight joined lines open with the first two and close with the last two. */
  lemma JoinEightEnds(a: string, b: string, c: string, d: string, e: string, f: string, g: string, h: string)
    ensures var r := Join("\n", [a, b, c, d, e, f, g, h]);
            StartsWith(r, a + "\n" + b + "\n") && EndsWith(r, "\n" + g + "\n" + h)
  {
    JoinEight(a, b, c, d, e, f, g, h);
    var r := Join("\n", [a, b, c, d, e, f, g, h]);
    var head := a + "\n" + b + "\n";
    var tail := "\n" + g + "\n" + h;
    var mid := c + "\n" + d + "\n" + e + "\n" + f;
    assert r == head + mid + tail;
    assert r[..|head|] == head;
    assert r[|r| - |tail|..] == tail;
  }

  /** Eight lines joined by newlines. */
  lemma JoinEight(a: string, b: string, c: string, d: string, e: string, f: string, g: string, h: string)
    ensures Join("\n", [a, b, c, d, e, f, g, h]) ==
            a + "\n" + b + "\n" + c + "\n" + d + "\n" + e + "\n" + f + "\n" + g + "\n" + h
  {
    var ls := [a, b, c, d, e, f, g, h];
    assert ls[6..][1..] == [h];
    assert Join("\n", ls[6..]) == g + "\n" + h;
    assert ls[5..][1..] == ls[6..];
    assert Join("\n", ls[5..]) == f + "\n" + Join("\n", ls[6..]);
    assert ls[4..][1..] == ls[5..];
    assert Join("\n", ls[4..]) == e + "\n" + Join("\n", ls[5..]);
    assert ls[3..][1..] == ls[4..];
    assert Join("\n", ls[3..]) == d + "\n" + Join("\n", ls[4..]);
    assert ls[2..][1..] == ls[3..];
    assert Join("\n", ls[2..]) == c + "\n" + Join("\n", ls[3..]);
    assert ls[1..][1..] == ls[2..];
    assert Join("\n", ls[1..]) == b + "\n" + Join("\n", ls[2..]);
    assert Join("\n", ls) == a + "\n" + Join("\n", ls[1..]);
  }

  lemma FrontmatterSplits(title: string, date: string, participants: seq<string>)
    requires '\n' !in title && '\n' !in date && '\n' !in QuotedList(participants)
    ensures SplitOn(Join("\n", FrontmatterLines(title, date, participants)), '\n') == FrontmatterLines(title, date, participants)
  {
    var ls := FrontmatterLines(title, date, participants);
    forall i | 0 <= i < |ls| ensures '\n' !in ls[i] {
    }
    SplitOnJoin(ls, '\n');
  }

  /** The optional sections, in the order the note lists them. */
  datatype Section =
    | Summary(text: string)
    | Participants(names: seq<string>)
    | Notes(text: string)
    | TranscriptSection(segments: seq<SegmentDict>)

  /** A section's place in the note. */
  function Rank(s: Section): nat {
    match s
    case Summary(_) => 0
    case Participants(_) => 1
    case Notes(_) => 2
    case TranscriptSection(_) => 3
  }

  predicate HasSummary(ss: seq<Section>) {
    exists i :: 0 <= i < |ss| && ss[i].Summary?
  }

  predicate HasParticipants(ss: seq<Section>) {
    exists i :: 0 <= i < |ss| && ss[i].Participants?
  }

  predicate HasNotes(ss: seq<Section>) {
    exists i :: 0 <= i < |ss| && ss[i].Notes?
  }

  predicate HasTranscript(ss: seq<Section>) {
    exists i :: 0 <= i < |ss| && ss[i].TranscriptSection?
  }

  /** The sections a note gets, strictly in summary, participants, notes,
      transcript order, each carrying its content unchanged. */
  function Sections(summary: string, participants: seq<string>, notes: string, segs: seq<SegmentDict>): (r: seq<Section>)
    ensures forall i, j :: 0 <= i < j < |r| ==> Rank(r[i]) < Rank(r[j])
    ensures forall i :: 0 <= i < |r| ==>
              match r[i]
              case Summary(t) => t == summary
              case Participants(ps) => ps == participants
              case Notes(t) => t == notes
              case TranscriptSection(s) => s == segs
  {
    (if summary != "" then [Summary(summary)] else [])
    + (if participants != [] then [Participants(participants)] else [])
    + (if notes != "" then [Notes(notes)] else [])
    + (if segs != [] then [TranscriptSection(segs)] else [])
  }

  /** Each section is present exactly when its content is non-empty. */
  lemma SectionsPresent(summary: string, participants: seq<string>, notes: string, segs: seq<SegmentDict>)
    ensures var r := Sections(summary, participants, notes, segs);
            && (HasSummary(r) <==> summary != "")
            && (HasParticipants(r) <==> participants != [])
            && (HasNotes(r) <==> notes != "")
            && (HasTranscript(r) <==> segs != [])
  {
    var r := Sections(summary, participants, notes, segs);
    var a := if summary != "" then 1 else 0;
    var b := if participants != [] then 1 else 0;
    var c := if notes != "" then 1 else 0;
    if summary != "" {
      assert r[0].Summary?;
    }
    if participants != [] {
      assert r[a].Participants?;
    }
    if notes != "" {
      assert r[a + b].Notes?;
    }
    if segs != [] {
      assert r[a + b + c].TranscriptSection?;
    }
  }

  /** A transcript line: `**[MM:SS] speaker:** text` and a newline, the
      speaker defaulting to `UNKNOWN`, the start to 0 and the text to empty,
      the text stripped. A speaker without ':' reads back from the line. */
  function TranscriptLine(d: SegmentDict): (r: string)
    ensures StartsWith(r, "**[")
    ensures ':' !in d.speaker.GetOr("UNKNOWN") ==>
              ReadLine(r, "**[", ":** ") ==
              Some((Timecode(d.start.GetOr(0.0)), d.speaker.GetOr("UNKNOWN"), Strip(d.text.GetOr("")) + "\n"))
  {
    TimecodeChars(StartOf(d));
    LabelledLine(Timecode(StartOf(d)), SpeakerOf(d), TextOf(d));
    "**[" + Timecode(StartOf(d)) + "] " + SpeakerOf(d) + ":** " + TextOf(d) + "\n"
  }

  lemma LabelledLine(code: string, speaker: string, text: string)
    requires ']' !in code
    ensures var r := "**[" + code + "] " + speaker + ":** " + text + "\n";
            && StartsWith(r, "**[")
            && (':' !in speaker ==> ReadLine(r, "**[", ":** ") == Some((code, speaker, text + "\n")))
  {
    var r := "**[" + code + "] " + speaker + ":** " + text + "\n";
    assert r == "**[" + code + "] " + speaker + ":** " + (text + "\n");
    assert r[..3] == "**[";
    ReadLineOf("**[", code, speaker, ":** ", text + "\n");
  }

  function TranscriptLines(segs: seq<SegmentDict>): (r: seq<string>)
    ensures |r| == |segs|
    ensures forall i :: 0 <= i < |r| ==> r[i] == TranscriptLine(segs[i])
  {
    if segs == [] then [] else [TranscriptLine(segs[0])] + TranscriptLines(segs[1..])
  }

  function Bullets(ps: seq<string>): (r: seq<string>)
    ensures |r| == |ps|
    ensures forall i :: 0 <= i < |r| ==> r[i] == "- " + ps[i]
  {
    if ps == [] then [] else ["- " + ps[0]] + Bullets(ps[1..])
  }

  /** The lines a section contributes: its heading, its content, and a
      closing blank line for all but the transcript. */
  function SectionLines(s: Section): (r: seq<string>)
    ensures |r| >= 1
    ensures r[0] == match s
                    case Summary(_) => "## Summary\n"
                    case Participants(_) => "## Participants\n"
                    case Notes(_) => "## Notes\n"
                    case TranscriptSection(_) => "## Transcript\n"
  {
    match s
    case Summary(t) => ["## Summary\n", t, ""]
    case Participants(ps) => ["## Participants\n"] + Bullets(ps) + [""]
    case Notes(t) => ["## Notes\n", t, ""]
    case TranscriptSection(segs) => ["## Transcript\n"] + TranscriptLines(segs)
  }

  /** The lines of each section, section by section. */
  function Blocks(ss: seq<Section>): (r: seq<seq<string>>)
    ensures |r| == |ss|
    ensures forall i :: 0 <= i < |r| ==> r[i] == SectionLines(ss[i])
  {
    if ss == [] then [] else [SectionLines(ss[0])] + Blocks(ss[1..])
  }

  function AllSectionLines(ss: seq<Section>): (r: seq<string>)
    ensures ss == [] <==> r == []
  {
    var bs := Blocks(ss);
    if ss == [] then Lists.Flatten(bs)
    else
      assert Lists.Flatten(bs) == bs[0] + Lists.Flatten(bs[1..]);
      Lists.Flatten(bs)
  }

  /** The lines of the note before they are joined. */
  function NoteLines(title: string, date: string, participants: seq<string>, segs: seq<SegmentDict>,
                     summary: string, notes: string): (r: seq<string>)
    ensures |r| >= 2
    ensures r[0] == Frontmatter(title, date, participants)
    ensures r[1] == "\n# " + title + "\n"
    ensures r[2..] == AllSectionLines(Sections(summary, participants, notes, segs))
  {
    [Frontmatter(title, date, participants), "\n# " + title + "\n"]
    + AllSectionLines(Sections(summary, participants, notes, segs))
  }

  /** The text the sections add to the note: for each, a newline, then its
      lines joined by newlines. */
  function SectionsText(ss: seq<Section>): string {
    PrefixedJoins("\n", Blocks(ss))
  }

  /** `render_meeting_note`: the frontmatter, the title heading, then the text
      of each present section in summary, participants, notes, transcript
      order. */
  function RenderMeetingNote(title: string, date: string, participants: seq<string>, segs: seq<SegmentDict>,
                             summary: string, notes: string): (r: string)
    ensures StartsWith(r, "---\ntitle: \"" + title + "\"\n")
    ensures r == Frontmatter(title, date, participants) + "\n" + "\n# " + title + "\n"
                 + SectionsText(Sections(summary, participants, notes, segs))
  {
    var lines := NoteLines(title, date, participants, segs, summary, notes);
    var fm := Frontmatter(title, date, participants);
    var heading := "\n# " + title + "\n";
    var ss := Sections(summary, participants, notes, segs);
    assert Join("\n", lines) == fm + "\n" + Join("\n", lines[1..]);
    assert lines[1..] == [heading] + AllSectionLines(ss);
    JoinHeadingSections(heading, ss);
    Join("\n", lines)
  }

  /** A heading followed by the lines of the sections joins to the heading
      followed by each section's text. */
  lemma JoinHeadingSections(heading: string, ss: seq<Section>)
    ensures Join("\n", [heading] + AllSectionLines(ss)) == heading + SectionsText(ss)
  {
    if ss == [] {
      assert [heading] + AllSectionLines(ss) == [heading];
    } else {
      JoinSectionLines(ss);
      assert ([heading] + AllSectionLines(ss))[1..] == AllSectionLines(ss);
    }
  }

  /** The joined lines of several sections are the text of each section in
      turn. */
  lemma JoinSectionLines(ss: seq<Section>)
    requires ss != []
    ensures "\n" + Join("\n", AllSectionLines(ss)) == SectionsText(ss)
  {
    JoinFlatten("\n", Blocks(ss));
  }

  /** A note with nothing but a title is the frontmatter and the heading. */
  lemma BareNote(title: string, date: string)
    ensures RenderMeetingNote(title, date, [], [], "", "") == Frontmatter(title, date, []) + "\n\n# " + title + "\n"
  {
    assert Sections("", [], "", []) == [];
    var lines := NoteLines(title, date, [], [], "", "");
    assert lines[1..] == ["\n# " + title + "\n"];
    assert Join("\n", lines) == lines[0] + "\n" + Join("\n", lines[1..]);
  }

  /** The participants section lists every participant, in order, one bullet
      each, right after its heading. */
  lemma {:induction false} ParticipantBullets(ps: seq<string>)
    requires ps != []
    ensures SectionLines(Participants(ps))[1..|ps| + 1] == Bullets(ps)
    ensures |SectionLines(Participants(ps))| == |ps| + 2
  {
    var r := SectionLines(Participants(ps));
    assert r == ["## Participants\n"] + Bullets(ps) + [""];
    assert r[1..|ps| + 1] == Bullets(ps);
  }
}
