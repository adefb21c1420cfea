/** Transcript records shared by the engine, the session store, the summarizer
    and the exporter, and the `[MM:SS]` time code the prompt formatter and the
    meeting-note renderer print in front of every segment. */
module Transcript {
  import opened Wrappers
  import opened Text

  /** One aligned word; `score` is the aligner's confidence. */
  datatype WordSegment = WordSegment(word: string, start: real, end: real, score: real)

  /** One speaker-attributed stretch of speech, in seconds from the start of
      the recording. `words` is absent when alignment produced none. */
  datatype TranscriptSegment = TranscriptSegment(
    text: string,
    speaker: string,
    start: real,
    end: real,
    words: Option<seq<WordSegment>>)

  /** A segment as a plain dictionary, as the formatters receive it: every key
      may be missing. */
  datatype SegmentDict = SegmentDict(
    text: Option<string>,
    speaker: Option<string>,
    start: Option<real>)

  /** The dictionary a stored segment dumps to: every key present. */
  function ToDict(s: TranscriptSegment): SegmentDict {
    SegmentDict(Some(s.text), Some(s.speaker), Some(s.start))
  }

  /** The speaker a formatter prints for a segment dictionary. */
  function SpeakerOf(d: SegmentDict): string {
    d.speaker.GetOr("UNKNOWN")
  }

  /** The start a formatter reads from a segment dictionary. */
  function StartOf(d: SegmentDict): real {
    d.start.GetOr(0.0)
  }

  /** The stripped text a formatter prints for a segment dictionary. */
  function TextOf(d: SegmentDict): string {
    Strip(d.text.GetOr(""))
  }

  // ---------------------------------------------------------------------------
  // Time codes: `int(start // 60)` and `int(start % 60)`, each `:02d`
  // ---------------------------------------------------------------------------

  /** Whole minutes: Python's float floor division by 60. */
  function Minutes(start: real): int {
    (start / 60.0).Floor
  }

  /** Whole seconds past the minute: Python's float `%` takes the sign of the
      divisor, so the remainder lies in [0, 60) and truncation is a floor. */
  function Seconds(start: real): int {
    (start - 60.0 * Minutes(start) as real).Floor
  }

  /** `[MM:SS]` without the brackets; minutes are not capped at 59. */
  function Timecode(start: real): string {
    Pad2(Minutes(start)) + ":" + Pad2(Seconds(start))
  }

  /** Minutes and seconds together name the whole second `start` falls in, and
      the seconds field never reaches 60. */
  lemma MinutesSecondsSplit(start: real)
    ensures 0 <= Seconds(start) < 60
    ensures 60 * Minutes(start) + Seconds(start) == start.Floor
  {
    var m := Minutes(start);
    var s := Seconds(start);
    assert 60.0 * m as real <= start < 60.0 * m as real + 60.0;
    assert s as real <= start - 60.0 * m as real < s as real + 1.0;
    assert (60 * m + s) as real <= start < (60 * m + s) as real + 1.0;
  }

  /** For a non-negative start the time code is two digit fields around a
      colon that read back as the minutes and seconds of `start`. */
  lemma {:induction false} TimecodeReadsBack(start: real)
    requires start >= 0.0
    ensures var r := Timecode(start);
            var i := IndexOf(r, ':');
            && 2 <= i < |r|
            && (forall k :: 0 <= k < i ==> IsDigit(r[k]))
            && (forall k :: i < k < |r| ==> IsDigit(r[k]))
            && ParseDigits(r[..i]) * 60 + ParseDigits(r[i + 1..]) == start.Floor
            && ParseDigits(r[i + 1..]) < 60
  {
    MinutesSecondsSplit(start);
    var m := Minutes(start);
    assert m >= 0 by {
      assert start / 60.0 >= 0.0;
    }
    var a := Pad2(m);
    var b := Pad2(Seconds(start));
    var r := Timecode(start);
    assert r == a + ":" + b;
    assert ':' !in a by {
      forall k | 0 <= k < |a| ensures a[k] != ':' {
        assert IsDigit(a[k]);
      }
    }
    IndexAfter(a, ':', b);
    assert r[..|a|] == a;
    assert r[|a| + 1..] == b;
  }

  /** The first `c` in `a + [c] + b` is the one after `a` when `a` has none. */
  lemma {:induction false} IndexAfter(a: string, c: char, b: string)
    requires c !in a
    ensures IndexOf(a + [c] + b, c) == |a|
  {
    if a != [] {
      assert (a + [c] + b)[1..] == a[1..] + [c] + b;
      IndexAfter(a[1..], c, b);
    }
  }

  /** A zero-padded number is made of digits and minus signs. */
  lemma PadChars(i: int)
    ensures forall k :: 0 <= k < |Pad2(i)| ==> Pad2(i)[k] == '-' || IsDigit(Pad2(i)[k])
  {
    if i < 0 {
      var n := NatToString(-i);
      assert Pad2(i) == "-" + n;
      forall k | 0 <= k < |Pad2(i)| ensures Pad2(i)[k] == '-' || IsDigit(Pad2(i)[k]) {
        if k > 0 {
          assert Pad2(i)[k] == n[k - 1];
        }
      }
    }
  }

  /** A time code is made of digits, one colon and minus signs. */
  lemma TimecodeChars(start: real)
    ensures forall k :: 0 <= k < |Timecode(start)| ==>
              var c := Timecode(start)[k];
              c == ':' || c == '-' || IsDigit(c)
    ensures '\n' !in Timecode(start) && ']' !in Timecode(start)
  {
    var a := Pad2(Minutes(start));
    var b := Pad2(Seconds(start));
    PadChars(Minutes(start));
    PadChars(Seconds(start));
    var tc := Timecode(start);
    assert tc == a + ":" + b;
    forall k | 0 <= k < |tc| ensures tc[k] == ':' || tc[k] == '-' || IsDigit(tc[k]) {
      if k < |a| {
        assert tc[k] == a[k];
      } else if k > |a| {
        assert tc[k] == b[k - |a| - 1];
      }
    }
  }

  // ---------------------------------------------------------------------------
  // Labelled transcript lines: `open + "MM:SS" + "] " + speaker + sep + text`
  // ---------------------------------------------------------------------------

  /** Reads a labelled line back: the time code runs to the first ']', which a
      space follows, and the speaker to the first ':' after that, where `sep`
      must begin; the rest is the text. `None` for a line of another shape. */
  function ReadLine(line: string, open: string, sep: string): Option<(string, string, string)> {
    if !StartsWith(line, open) then None else ReadCoded(line[|open|..], sep)
  }

  /** The time code up to the first ']' and a space, then the speaker part. */
  function ReadCoded(body: string, sep: string): Option<(string, string, string)> {
    var i := IndexOf(body, ']');
    if i + 2 > |body| || body[i + 1] != ' ' then None
    else
      match ReadSpeaker(body[i + 2..], sep)
      case None => None
      case Some((speaker, text)) => Some((body[..i], speaker, text))
  }

  /** The speaker up to the first ':', where `sep` must begin, then the text. */
  function ReadSpeaker(rest: string, sep: string): Option<(string, string)> {
    var j := IndexOf(rest, ':');
    if !StartsWith(rest[j..], sep) then None
    else Some((rest[..j], rest[j + |sep|..]))
  }

  /** A line written from a time code without ']' and a speaker without ':'
      reads back as that code, speaker and text. */
  lemma ReadLineOf(open: string, code: string, speaker: string, sep: string, text: string)
    requires ']' !in code && sep != [] && sep[0] == ':'
    ensures ':' !in speaker ==>
              ReadLine(open + code + "] " + speaker + sep + text, open, sep) == Some((code, speaker, text))
  {
    if ':' !in speaker {
      var rest := speaker + sep + text;
      var body := code + "] " + rest;
      var line := open + body;
      assert line == open + code + "] " + speaker + sep + text;
      assert line[..|open|] == open && line[|open|..] == body;
      ReadSpeakerOf(speaker, sep, text);
      ReadCodedOf(code, rest, sep);
    }
  }

  lemma ReadCodedOf(code: string, rest: string, sep: string)
    requires ']' !in code
    ensures ReadSpeaker(rest, sep).Some? ==>
              ReadCoded(code + "] " + rest, sep) ==
              Some((code, ReadSpeaker(rest, sep).value.0, ReadSpeaker(rest, sep).value.1))
  {
    var body := code + "] " + rest;
    assert body == code + [']'] + (" " + rest);
    IndexAfter(code, ']', " " + rest);
    assert body[|code| + 1] == ' ';
    assert body[..|code|] == code;
    assert body[|code| + 2..] == rest;
  }

  lemma ReadSpeakerOf(speaker: string, sep: string, text: string)
    requires ':' !in speaker && sep != [] && sep[0] == ':'
    ensures ReadSpeaker(speaker + sep + text, sep) == Some((speaker, text))
  {
    var rest := speaker + sep + text;
    assert rest == speaker + [':'] + (sep[1..] + text);
    IndexAfter(speaker, ':', sep[1..] + text);
    assert rest[|speaker|..] == sep + text;
    assert rest[..|speaker|] == speaker;
    assert rest[|speaker| + |sep|..] == text;
  }
}
