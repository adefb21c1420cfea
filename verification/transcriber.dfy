/** The legacy transcriber's deterministic parts: speaker lookup by time
    point, word chunking for the punctuation model, punctuation assembly and
    the assembly of the final segment list from the speech pipeline's output.
    The speech, diarization and punctuation models are parameters. */
module Transcriber {
  import opened Wrappers
  import opened Text
  import opened Lists
  import opened Segments

  /** One diarization turn, in seconds. */
  datatype Turn = Turn(start: real, end: real, speaker: string)

  /** The label used when diarization gives nothing to go on. */
  const DefaultSpeaker: string := "Speaker 1"

  // ---------------------------------------------------------------------------
  // Speaker lookup
  // ---------------------------------------------------------------------------

  /** The closed interval of `t` contains `time`. */
  predicate ActiveAt(t: Turn, time: real) {
    t.start <= time <= t.end
  }

  predicate HasActive(turns: seq<Turn>, time: real) {
    exists j :: 0 <= j < |turns| && ActiveAt(turns[j], time)
  }

  /** The speakers of the turns active at `time`, one entry per turn. */
  function ActiveSpeakers(turns: seq<Turn>, time: real): (r: seq<string>)
    ensures |r| <= |turns|
    ensures r == [] <==> !HasActive(turns, time)
    ensures forall k :: 0 <= k < |r| ==>
              exists j :: 0 <= j < |turns| && ActiveAt(turns[j], time) && turns[j].speaker == r[k]
    ensures forall j :: 0 <= j < |turns| && ActiveAt(turns[j], time) ==> turns[j].speaker in r
  {
    if turns == [] then []
    else
      var rest := ActiveSpeakers(turns[1..], time);
      assert forall j :: 1 <= j < |turns| ==> turns[j] == turns[1..][j - 1];
      assert HasActive(turns, time) <==> ActiveAt(turns[0], time) || HasActive(turns[1..], time) by {
        if HasActive(turns, time) && !ActiveAt(turns[0], time) {
          var j :| 0 <= j < |turns| && ActiveAt(turns[j], time);
          assert ActiveAt(turns[1..][j - 1], time);
        }
        if HasActive(turns[1..], time) {
          var j :| 0 <= j < |turns[1..]| && ActiveAt(turns[1..][j], time);
          assert ActiveAt(turns[j + 1], time);
        }
      }
      if ActiveAt(turns[0], time) then [turns[0].speaker] + rest else rest
  }

  /** The active-speaker list of consecutive turn lists is the concatenation
      of theirs: with `ActiveSpeakersSingle` this fixes the order and the
      multiplicity of the list that `MostCommon` counts. */
  lemma {:induction false} ActiveSpeakersAppend(a: seq<Turn>, b: seq<Turn>, time: real)
    ensures ActiveSpeakers(a + b, time) == ActiveSpeakers(a, time) + ActiveSpeakers(b, time)
  {
    if a == [] {
      assert a + b == b;
    } else {
      assert (a + b)[1..] == a[1..] + b;
      ActiveSpeakersAppend(a[1..], b, time);
    }
  }

  /** One turn contributes its speaker exactly when it is active. */
  lemma ActiveSpeakersSingle(t: Turn, time: real)
    ensures ActiveSpeakers([t], time) == (if ActiveAt(t, time) then [t.speaker] else [])
  {
  }

  /** How often `x` occurs in `xs`. */
  function Count(xs: seq<string>, x: string): nat {
    multiset(xs)[x]
  }

  /** The index of the first element with maximal count among `xs[..i]` and
      the candidate `best`, scanning from `i`. */
  function MostCommonFrom(xs: seq<string>, i: nat, best: nat): (r: nat)
    requires best < i <= |xs|
    requires forall k :: 0 <= k < i ==> Count(xs, xs[k]) <= Count(xs, xs[best])
    ensures r < |xs|
    ensures forall k :: 0 <= k < |xs| ==> Count(xs, xs[k]) <= Count(xs, xs[r])
    decreases |xs| - i
  {
    if i == |xs| then best
    else if Count(xs, xs[i]) > Count(xs, xs[best]) then MostCommonFrom(xs, i + 1, i)
    else MostCommonFrom(xs, i + 1, best)
  }

  /** `max(set(xs), key=xs.count)`: an element of `xs` that occurs at least as
      often as any other. Python breaks ties by set iteration order; this model
      takes the earliest in list order. */
  function MostCommon(xs: seq<string>): (r: string)
    requires xs != []
    ensures r in xs
    ensures forall k :: 0 <= k < |xs| ==> Count(xs, xs[k]) <= Count(xs, r)
  {
    xs[MostCommonFrom(xs, 1, 0)]
  }

  function Abs(x: real): real {
    if x < 0.0 then -x else x
  }

  /** Distance from `time` to the nearer end of turn `t`. */
  function Distance(t: Turn, time: real): real {
    var a := Abs(t.start - time);
    var b := Abs(t.end - time);
    if a <= b then a else b
  }

  /** The scan for the nearest turn: `best` is the first index with the least
      distance among `turns[..i]`, and a later turn replaces it only when it is
      strictly nearer. */
  function NearestFrom(turns: seq<Turn>, time: real, i: nat, best: nat): (r: nat)
    requires best < i <= |turns|
    requires forall k :: 0 <= k < i ==> Distance(turns[best], time) <= Distance(turns[k], time)
    requires forall k :: 0 <= k < best ==> Distance(turns[k], time) > Distance(turns[best], time)
    ensures r < |turns|
    ensures forall k :: 0 <= k < |turns| ==> Distance(turns[r], time) <= Distance(turns[k], time)
    ensures forall k :: 0 <= k < r ==> Distance(turns[k], time) > Distance(turns[r], time)
    decreases |turns| - i
  {
    if i == |turns| then best
    else if Distance(turns[i], time) < Distance(turns[best], time) then NearestFrom(turns, time, i + 1, i)
    else NearestFrom(turns, time, i + 1, best)
  }

  /** `find_speaker_for_time`: the default label when there are no turns,
      otherwise a speaker drawn from the turns (see `FindSpeakerActive` and
      `FindSpeakerNearest` for which one). */
  function FindSpeakerForTime(time: real, turns: seq<Turn>): (r: string)
    ensures turns == [] ==> r == DefaultSpeaker
    ensures turns != [] ==> exists j :: 0 <= j < |turns| && turns[j].speaker == r
  {
    if turns == [] then DefaultSpeaker
    else
      var active := ActiveSpeakers(turns, time);
      if active == [] then turns[NearestFrom(turns, time, 1, 0)].speaker
      else
        var r := MostCommon(active);
        assert exists k :: 0 <= k < |active| && active[k] == r;
        r
  }

  /** When some turn contains `time`, the result is the speaker of a
      containing turn, and no speaker has more containing turns. */
  lemma FindSpeakerActive(time: real, turns: seq<Turn>)
    requires HasActive(turns, time)
    ensures var r := FindSpeakerForTime(time, turns);
            var active := ActiveSpeakers(turns, time);
            && (exists j :: 0 <= j < |turns| && ActiveAt(turns[j], time) && turns[j].speaker == r)
            && (forall j :: 0 <= j < |turns| && ActiveAt(turns[j], time) ==>
                  Count(active, turns[j].speaker) <= Count(active, r))
  {
    var active := ActiveSpeakers(turns, time);
    var r := FindSpeakerForTime(time, turns);
    var j :| 0 <= j < |turns| && ActiveAt(turns[j], time);
    assert turns[j].speaker in active;
    assert r == MostCommon(active);
    assert exists k :: 0 <= k < |active| && active[k] == r;
    forall j | 0 <= j < |turns| && ActiveAt(turns[j], time)
      ensures Count(active, turns[j].speaker) <= Count(active, r)
    {
      assert turns[j].speaker in active;
      var k :| 0 <= k < |active| && active[k] == turns[j].speaker;
    }
  }

  /** When no turn contains `time`, the result is the speaker of the first
      turn whose nearer end is closest to `time`: later turns win only when
      strictly closer. */
  lemma FindSpeakerNearest(time: real, turns: seq<Turn>)
    requires turns != [] && !HasActive(turns, time)
    ensures var r := FindSpeakerForTime(time, turns);
            exists j :: 0 <= j < |turns| && turns[j].speaker == r
              && (forall k :: 0 <= k < |turns| ==> Distance(turns[j], time) <= Distance(turns[k], time))
              && (forall k :: 0 <= k < j ==> Distance(turns[k], time) > Distance(turns[j], time))
  {
    var j := NearestFrom(turns, time, 1, 0);
    assert FindSpeakerForTime(time, turns) == turns[j].speaker;
  }

  // ---------------------------------------------------------------------------
  // Chunking text for the punctuation model
  // ---------------------------------------------------------------------------

  /** The default size bound of a chunk, in characters. */
  const MaxChunkSize: nat := 256

  /** The chunking loop over the remaining words `ws`, with `cur` the chunk
      being filled: a word joins the chunk while the joined chunk stays within
      `max`, and otherwise the chunk is emitted (even when it is empty) and the
      word starts the next one. Each chunk is given as its list of words. */
  function ChunkGroups(ws: seq<string>, cur: seq<string>, max: int): (gs: seq<seq<string>>)
    decreases |ws|
  {
    if ws == [] then (if cur != [] then [cur] else [])
    else if |Join(" ", cur + [ws[0]])| <= max then ChunkGroups(ws[1..], cur + [ws[0]], max)
    else [cur] + ChunkGroups(ws[1..], [ws[0]], max)
  }

  function JoinEach(gs: seq<seq<string>>): (r: seq<string>)
    ensures |r| == |gs|
    ensures forall k :: 0 <= k < |gs| ==> r[k] == Join(" ", gs[k])
  {
    if gs == [] then [] else [Join(" ", gs[0])] + JoinEach(gs[1..])
  }

  function SplitEach(chunks: seq<string>): (r: seq<seq<string>>)
    ensures |r| == |chunks|
    ensures forall k :: 0 <= k < |chunks| ==> r[k] == Split(chunks[k])
  {
    if chunks == [] then [] else [Split(chunks[0])] + SplitEach(chunks[1..])
  }

  /** `split_text`. */
  function SplitText(text: string, max: int): seq<string> {
    JoinEach(ChunkGroups(Split(text), [], max))
  }

  predicate AllWords(ws: seq<string>) {
    forall i :: 0 <= i < |ws| ==> IsWord(ws[i])
  }

  /** The chunk groups hold the words in order, and a group of two or more
      words fits in `max` when the group being filled does. */
  lemma {:induction false} ChunkGroupsWords(ws: seq<string>, cur: seq<string>, max: int)
    requires |cur| >= 2 ==> |Join(" ", cur)| <= max
    ensures var gs := ChunkGroups(ws, cur, max);
            && Flatten(gs) == cur + ws
            && (forall k :: 0 <= k < |gs| && |gs[k]| >= 2 ==> |Join(" ", gs[k])| <= max)
    decreases |ws|
  {
    if ws != [] {
      var w := ws[0];
      if |Join(" ", cur + [w])| <= max {
        ChunkGroupsWords(ws[1..], cur + [w], max);
        assert cur + [w] + ws[1..] == cur + ws;
      } else {
        ChunkGroupsWords(ws[1..], [w], max);
        var tail := ChunkGroups(ws[1..], [w], max);
        assert ([cur] + tail)[1..] == tail;
        assert [w] + ws[1..] == ws;
      }
    }
  }

  /** Only the first group can be empty, and it is empty exactly when the
      chunking starts with an empty chunk and a word too long to fit. */
  lemma {:induction false} ChunkGroupsEmpty(ws: seq<string>, cur: seq<string>, max: int)
    ensures var gs := ChunkGroups(ws, cur, max);
            && (forall k :: 1 <= k < |gs| ==> gs[k] != [])
            && (cur != [] ==> forall k :: 0 <= k < |gs| ==> gs[k] != [])
            && (cur == [] && ws != [] && |ws[0]| > max ==> gs != [] && gs[0] == [])
            && (gs != [] && gs[0] == [] ==> cur == [] && ws != [] && |ws[0]| > max)
    decreases |ws|
  {
    if ws != [] {
      var w := ws[0];
      assert cur == [] ==> Join(" ", cur + [w]) == w;
      if |Join(" ", cur + [w])| <= max {
        ChunkGroupsEmpty(ws[1..], cur + [w], max);
      } else {
        ChunkGroupsEmpty(ws[1..], [w], max);
        var tail := ChunkGroups(ws[1..], [w], max);
        assert ([cur] + tail)[1..] == tail;
      }
    }
  }

  lemma {:induction false} SplitEachJoinEach(gs: seq<seq<string>>)
    requires forall k :: 0 <= k < |gs| ==> AllWords(gs[k])
    ensures SplitEach(JoinEach(gs)) == gs
  {
    forall k | 0 <= k < |gs| ensures Split(Join(" ", gs[k])) == gs[k] {
      SplitJoin(gs[k]);
    }
  }

  lemma {:induction false} FlattenAllWords(gs: seq<seq<string>>, cur: seq<string>, ws: seq<string>)
    requires Flatten(gs) == cur + ws
    requires AllWords(ws) && AllWords(cur)
    ensures forall k :: 0 <= k < |gs| ==> AllWords(gs[k])
    decreases |gs|
  {
    if gs != [] {
      var all := cur + ws;
      assert forall i :: 0 <= i < |all| ==> IsWord(all[i]) by {
        forall i | 0 <= i < |all| ensures IsWord(all[i]) {
          if i < |cur| { assert all[i] == cur[i]; } else { assert all[i] == ws[i - |cur|]; }
        }
      }
      assert forall i :: 0 <= i < |gs[0]| ==> IsWord(gs[0][i]) by {
        forall i | 0 <= i < |gs[0]| ensures IsWord(gs[0][i]) {
          assert gs[0][i] == all[i];
        }
      }
      var rest := all[|gs[0]|..];
      assert Flatten(gs[1..]) == [] + rest;
      FlattenAllWords(gs[1..], [], rest);
      forall k | 0 <= k < |gs| ensures AllWords(gs[k]) {
        if k > 0 { assert gs[k] == gs[1..][k - 1]; }
      }
    }
  }

  /** Splitting the chunks again and concatenating the words gives back the
      words of the text, in order. */
  lemma SplitTextWords(text: string, max: int)
    ensures Flatten(SplitEach(SplitText(text, max))) == Split(text)
  {
    var ws := Split(text);
    var gs := ChunkGroups(ws, [], max);
    ChunkGroupsWords(ws, [], max);
    FlattenAllWords(gs, [], ws);
    SplitEachJoinEach(gs);
    assert [] + ws == ws;
  }

  /** Every chunk of two or more words fits in `max`; a single word may not. */
  lemma SplitTextBound(text: string, max: int)
    ensures var chunks := SplitText(text, max);
            forall k :: 0 <= k < |chunks| && |Split(chunks[k])| >= 2 ==> |chunks[k]| <= max
  {
    var ws := Split(text);
    var gs := ChunkGroups(ws, [], max);
    ChunkGroupsWords(ws, [], max);
    FlattenAllWords(gs, [], ws);
    SplitEachJoinEach(gs);
    var chunks := SplitText(text, max);
    forall k | 0 <= k < |chunks| && |Split(chunks[k])| >= 2 ensures |chunks[k]| <= max {
      assert SplitEach(chunks)[k] == gs[k];
    }
  }

  /** The first chunk is empty exactly when the first word is longer than
      `max`; no later chunk is ever empty. */
  lemma SplitTextEmptyChunk(text: string, max: int)
    ensures var chunks := SplitText(text, max);
            var ws := Split(text);
            && (ws != [] && |ws[0]| > max <==> chunks != [] && chunks[0] == "")
            && (forall k :: 1 <= k < |chunks| ==> chunks[k] != "")
  {
    var ws := Split(text);
    var gs := ChunkGroups(ws, [], max);
    ChunkGroupsEmpty(ws, [], max);
    ChunkGroupsWords(ws, [], max);
    FlattenAllWords(gs, [], ws);
    var chunks := SplitText(text, max);
    forall k | 0 <= k < |chunks| ensures chunks[k] == "" <==> gs[k] == [] {
      if gs[k] != [] {
        assert IsWord(gs[k][0]);
        JoinLength(" ", gs[k]);
        SumLengthsPositive(gs[k]);
      }
    }
  }

  lemma {:induction false} SumLengthsPositive(ws: seq<string>)
    requires ws != [] && IsWord(ws[0])
    ensures SumLengths(ws) > 0
  {
  }

  // ---------------------------------------------------------------------------
  // Punctuation
  // ---------------------------------------------------------------------------

  /** The marks the transcriber accepts from the punctuation model: a label is
      appended when it is a substring of ".!?". */
  const SentenceMarks: string := ".!?"

  /** One chunk after punctuation, from the model's first labelled pair. */
  function Punctuated(pair: (string, string)): string {
    if Contains(SentenceMarks, pair.1) then pair.0 + pair.1 else pair.0
  }

  /** A one-character label is appended exactly when it ends a sentence. */
  lemma PunctuatedMarks(word: string, mark: char)
    ensures Punctuated((word, [mark])) == if mark in {'.', '!', '?'} then word + [mark] else word
  {
    if mark in {'.', '!', '?'} {
      var i := if mark == '.' then 0 else if mark == '!' then 1 else 2;
      assert SentenceMarks[i..i + 1] == [mark];
      assert OccursAt(SentenceMarks, [mark], i);
    } else {
      forall i | 0 <= i <= 2 ensures !OccursAt(SentenceMarks, [mark], i) {
        assert SentenceMarks[i..i + 1][0] == SentenceMarks[i];
      }
    }
  }

  /** Every chunk through the model, or `None` as soon as the model labels
      nothing for one (indexing its empty answer raises). */
  function PunctuateChunks(chunks: seq<string>, predict: string -> Option<(string, string)>): (r: Option<seq<string>>)
    ensures r.Some? <==> forall k :: 0 <= k < |chunks| ==> predict(chunks[k]).Some?
    ensures r.Some? ==> |r.value| == |chunks|
    ensures r.Some? ==> forall k :: 0 <= k < |chunks| ==> r.value[k] == Punctuated(predict(chunks[k]).value)
  {
    if chunks == [] then Some([])
    else
      match predict(chunks[0])
      case None => None
      case Some(pair) =>
        var rest := PunctuateChunks(chunks[1..], predict);
        assert forall k :: 1 <= k < |chunks| ==> chunks[k] == chunks[1..][k - 1];
        if rest.None? then None else Some([Punctuated(pair)] + rest.value)
  }

  /** `add_punctuation`: the text cut into chunks of at most `MaxChunkSize`,
      each punctuated, joined again by spaces. `predict` stands for the
      punctuation model; `None` is a failure that propagates. */
  function AddPunctuation(text: string, predict: string -> Option<(string, string)>): (r: Option<string>)
  {
    var pieces := PunctuateChunks(SplitText(text, MaxChunkSize), predict);
    if pieces.None? then None else Some(Join(" ", pieces.value))
  }

  /** `add_punctuation` with the punctuation model fixed. */
  function Punctuator(predict: string -> Option<(string, string)>): string -> Option<string> {
    (t: string) => AddPunctuation(t, predict)
  }

  // ---------------------------------------------------------------------------
  // Assembling segments from the pipeline output
  // ---------------------------------------------------------------------------

  /** One chunk of the speech pipeline: its text and, when the key is present,
      its (start, end) pair, either side of which may be missing. */
  datatype Chunk = Chunk(text: string, timestamp: Option<(Option<real>, Option<real>)>)

  /** The pipeline result: either a dictionary with chunks, or something else
      whose stripped `text` value (when present) or printed form is used. */
  datatype PipelineResult =
    | Chunked(chunks: seq<Chunk>)
    | Unchunked(text: Option<string>, printed: string)

  /** The time point used for speaker lookup: the midpoint when both ends are
      known, else whichever end is known, else 0. */
  function TimePoint(start: Option<real>, end: Option<real>): (t: real)
    ensures start.Some? && end.Some? ==>
              (start.value <= t <= end.value || end.value <= t <= start.value)
              && t - start.value == end.value - t
    ensures start.Some? && end.None? ==> t == start.value
    ensures start.None? && end.Some? ==> t == end.value
    ensures start.None? && end.None? ==> t == 0.0
  {
    if start.Some? && end.Some? then (start.value + end.value) / 2.0
    else if start.Some? then start.value
    else if end.Some? then end.value
    else 0.0
  }

  /** A chunk's (start, end); a missing key counts as (0.0, 0.0). */
  function Bounds(c: Chunk): (Option<real>, Option<real>) {
    c.timestamp.GetOr((Some(0.0), Some(0.0)))
  }

  /** The chunks whose stripped text is non-empty, in order. */
  function NonBlank(chunks: seq<Chunk>): (r: seq<Chunk>)
    ensures |r| <= |chunks|
    ensures forall k :: 0 <= k < |r| ==> !IsBlank(r[k].text)
  {
    if chunks == [] then []
    else if IsBlank(chunks[0].text) then NonBlank(chunks[1..])
    else [chunks[0]] + NonBlank(chunks[1..])
  }

  /** The segment one non-blank chunk becomes: the stripped text after
      `punctuate` (which stands for `add_punctuation` with the model fixed),
      the production time `now`, the speaker at the chunk's time point, and
      missing ends stored as 0.0. `None` when punctuation fails. */
  function SegmentFor(c: Chunk, turns: seq<Turn>, punctuate: string -> Option<string>, now: real): (r: Option<Segment>)
    ensures r.Some? <==> punctuate(Strip(c.text)).Some?
    ensures r.Some? ==> r.value.start == Bounds(c).0.GetOr(0.0) && r.value.end == Bounds(c).1.GetOr(0.0)
    ensures r.Some? ==> r.value.speaker == FindSpeakerForTime(TimePoint(Bounds(c).0, Bounds(c).1), turns)
    ensures r.Some? ==> r.value.timestamp == now
    ensures r.Some? ==> r.value.text == punctuate(Strip(c.text)).value
  {
    var (s, e) := Bounds(c);
    var speaker := FindSpeakerForTime(TimePoint(s, e), turns);
    var punct := punctuate(Strip(c.text));
    if punct.None? then None
    else Some(Segment(punct.value, speaker, s.GetOr(0.0), e.GetOr(0.0), now))
  }

  /** All the values when every entry is present, else `None`: one failing
      chunk aborts the whole run. */
  function AllPresent<T>(xs: seq<Option<T>>): (r: Option<seq<T>>)
    ensures r.Some? <==> forall k :: 0 <= k < |xs| ==> xs[k].Some?
    ensures r.Some? ==> |r.value| == |xs| && forall k :: 0 <= k < |xs| ==> Some(r.value[k]) == xs[k]
  {
    if xs == [] then Some([])
    else
      var rest := AllPresent(xs[1..]);
      assert forall k :: 1 <= k < |xs| ==> xs[k] == xs[1..][k - 1];
      if xs[0].None? || rest.None? then None else Some([xs[0].value] + rest.value)
  }

  /** The segments of the chunk path: one per non-blank chunk (see
      `SegmentsFor`). */
  function ChunkSegments(
    chunks: seq<Chunk>,
    turns: seq<Turn>,
    punctuate: string -> Option<string>,
    now: real): (r: Option<seq<Segment>>)
  {
    SegmentsFor(NonBlank(chunks), turns, punctuate, now)
  }

  /** One segment per chunk, in order, or `None` when punctuating any of
      them fails. */
  function SegmentsFor(cs: seq<Chunk>, turns: seq<Turn>, punctuate: string -> Option<string>, now: real): (r: Option<seq<Segment>>)
    ensures r.Some? <==> forall k :: 0 <= k < |cs| ==> SegmentFor(cs[k], turns, punctuate, now).Some?
    ensures r.Some? ==> |r.value| == |cs|
    ensures r.Some? ==> forall k :: 0 <= k < |cs| ==> Some(r.value[k]) == SegmentFor(cs[k], turns, punctuate, now)
  {
    if cs == [] then Some([])
    else
      var h := SegmentFor(cs[0], turns, punctuate, now);
      var t := SegmentsFor(cs[1..], turns, punctuate, now);
      assert forall k :: 1 <= k < |cs| ==> cs[k] == cs[1..][k - 1];
      if h.None? || t.None? then None else Some([h.value] + t.value)
  }

  /** The accumulated talk time of `speaker` over the turns. */
  function TalkTime(turns: seq<Turn>, speaker: string): real {
    if turns == [] then 0.0
    else (if turns[0].speaker == speaker then turns[0].end - turns[0].start else 0.0)
         + TalkTime(turns[1..], speaker)
  }

  function SpeakersOf(turns: seq<Turn>): (r: seq<string>)
    ensures |r| == |turns|
    ensures forall k :: 0 <= k < |turns| ==> r[k] == turns[k].speaker
  {
    if turns == [] then [] else [turns[0].speaker] + SpeakersOf(turns[1..])
  }

  /** The index of the first speaker of `names[..i]` with the most talk time. */
  function MostTalkFrom(turns: seq<Turn>, names: seq<string>, i: nat, best: nat): (r: nat)
    requires best < i <= |names|
    requires forall k :: 0 <= k < i ==> TalkTime(turns, names[k]) <= TalkTime(turns, names[best])
    requires forall k :: 0 <= k < best ==> TalkTime(turns, names[k]) < TalkTime(turns, names[best])
    ensures r < |names|
    ensures forall k :: 0 <= k < |names| ==> TalkTime(turns, names[k]) <= TalkTime(turns, names[r])
    ensures forall k :: 0 <= k < r ==> TalkTime(turns, names[k]) < TalkTime(turns, names[r])
    decreases |names| - i
  {
    if i == |names| then best
    else if TalkTime(turns, names[i]) > TalkTime(turns, names[best]) then MostTalkFrom(turns, names, i + 1, i)
    else MostTalkFrom(turns, names, i + 1, best)
  }

  /** The speaker with the most accumulated talk time; among equals, the one
      that speaks first, as `max` over a dict in insertion order picks it. */
  function MostTalkTime(turns: seq<Turn>): (r: string)
    requires turns != []
    ensures exists j :: 0 <= j < |turns| && turns[j].speaker == r
    ensures forall j :: 0 <= j < |turns| ==> TalkTime(turns, turns[j].speaker) <= TalkTime(turns, r)
    ensures forall j :: 0 <= j < |turns| && TalkTime(turns, turns[j].speaker) == TalkTime(turns, r) ==>
              FirstIndex(SpeakersOf(turns), r) <= j
  {
    var all := SpeakersOf(turns);
    var names := Distinct(all);
    DistinctContains(all, all[0]);
    assert names != [];
    var idx := MostTalkFrom(turns, names, 1, 0);
    var r := names[idx];
    DistinctContains(all, r);
    DistinctOrder(all);
    forall j | 0 <= j < |turns| ensures TalkTime(turns, turns[j].speaker) <= TalkTime(turns, r) {
      DistinctContains(all, all[j]);
      assert all[j] == turns[j].speaker;
    }
    forall j | 0 <= j < |turns| && TalkTime(turns, turns[j].speaker) == TalkTime(turns, r)
      ensures FirstIndex(all, r) <= j
    {
      FirstSpeakerOfTies(all, names, idx, j, turns);
    }
    r
  }

  /** A speaker whose talk time ties the chosen one does not appear before it. */
  lemma FirstSpeakerOfTies(all: seq<string>, names: seq<string>, idx: nat, j: nat, turns: seq<Turn>)
    requires names == Distinct(all) && FirstOccurrenceOrder(names, all)
    requires idx < |names| && j < |all|
    requires forall k :: 0 <= k < idx ==> TalkTime(turns, names[k]) < TalkTime(turns, names[idx])
    requires TalkTime(turns, all[j]) == TalkTime(turns, names[idx])
    ensures FirstIndex(all, names[idx]) <= j
  {
    DistinctContains(all, all[j]);
    var m :| 0 <= m < |names| && names[m] == all[j];
    assert FirstIndex(all, all[j]) <= j;
    if m != idx {
      assert idx < m;
    }
  }

  /** The segments of the fallback path: nothing when the text is blank,
      otherwise one segment from 0 to the audio length, credited to the
      speaker with the most talk time (the default label without turns). */
  function FallbackSegments(
    text: string,
    turns: seq<Turn>,
    punctuate: string -> Option<string>,
    now: real,
    samples: nat,
    rate: int): (r: Option<seq<Segment>>)
    ensures text == [] ==> r == Some([])
    ensures text != [] ==> (r.Some? <==> punctuate(text).Some?)
    ensures r.Some? && text != [] ==> |r.value| == 1 && r.value[0].start == 0.0
    ensures r.Some? && text != [] ==> r.value[0].text == punctuate(text).value && r.value[0].timestamp == now
    ensures r.Some? && text != [] && turns == [] ==> r.value[0].speaker == DefaultSpeaker
    ensures r.Some? && text != [] && turns != [] ==> r.value[0].speaker == MostTalkTime(turns)
    ensures r.Some? && text != [] && turns != [] ==>
              forall j :: 0 <= j < |turns| ==>
                TalkTime(turns, turns[j].speaker) <= TalkTime(turns, r.value[0].speaker)
    ensures r.Some? && text != [] && rate <= 0 ==> r.value[0].end == 0.0
    ensures r.Some? && text != [] && rate > 0 ==> r.value[0].end == samples as real / rate as real
  {
    if text == [] then Some([])
    else
      var punct := punctuate(text);
      if punct.None? then None
      else
        var speaker := if turns == [] then DefaultSpeaker else MostTalkTime(turns);
        var end := if rate > 0 then samples as real / rate as real else 0.0;
        Some([Segment(punct.value, speaker, 0.0, end, now)])
  }

  /** The raw segments of either path. */
  function RawSegments(
    result: PipelineResult,
    turns: seq<Turn>,
    punctuate: string -> Option<string>,
    now: real,
    samples: nat,
    rate: int): Option<seq<Segment>>
  {
    match result
    case Chunked(chunks) => ChunkSegments(chunks, turns, punctuate, now)
    case Unchunked(text, printed) =>
      var t := if text.Some? then Strip(text.value) else printed;
      FallbackSegments(t, turns, punctuate, now, samples, rate)
  }

  /** The final list: one raw segment or none is kept as it is; more are
      merged and then de-duplicated, which leaves a start-ordered list of
      non-blank merged segments. */
  function FinalSegments(raw: seq<Segment>, ratio: (string, string) -> real): (r: seq<Segment>)
    ensures |raw| <= 1 ==> r == raw
    ensures |raw| >= 2 ==> StartsAscending(r)
    ensures |raw| >= 2 ==> forall i :: 0 <= i < |r| ==> !IsBlank(r[i].text)
    ensures |raw| >= 2 ==> IsSubsequence(r, Merge(raw))
  {
    if |raw| <= 1 then raw
    else
      DedupKeepsOrder(Merge(raw), ratio);
      DedupSpec(Merge(raw), ratio)
  }

  /** De-duplicating a start-ordered list keeps it start-ordered. */
  lemma DedupKeepsOrder(merged: seq<Segment>, ratio: (string, string) -> real)
    requires StartsAscending(merged)
    ensures var r := DedupSpec(merged, ratio);
            && StartsAscending(r)
            && (forall i :: 0 <= i < |r| ==> !IsBlank(r[i].text))
            && IsSubsequence(r, merged)
  {
    var r := DedupSpec(merged, ratio);
    DedupSubsequence(merged, ratio);
    DedupNonBlank(merged, ratio);
    var before := (a: Segment, b: Segment) => a.start <= b.start;
    assert forall i, j :: 0 <= i < j < |merged| ==> before(merged[i], merged[j]);
    SubsequencePairs(r, merged, before);
    forall i, j | 0 <= i < j < |r| ensures r[i].start <= r[j].start {
      assert before(r[i], r[j]);
    }
  }

  /** The transcriber's accumulated transcript and its outbound queue. */
  datatype TranscriberState = TranscriberState(transcript: seq<Segment>, queue: seq<Segment>)

  /** `clear_transcript`: both the transcript and the queue are emptied. */
  function ClearTranscript(st: TranscriberState): (r: TranscriberState)
    ensures r.transcript == [] && r.queue == []
  {
    TranscriberState([], [])
  }

  /** Everything `process_audio_file` consumes that comes from outside: the
      pipeline result (`None` when loading or transcribing raised), the
      diarization turns (empty when diarization is unavailable or failed) and
      the audio length as a sample count and rate. */
  datatype AudioInput = AudioInput(result: Option<PipelineResult>, turns: seq<Turn>, samples: nat, rate: int)

  /** `process_audio_file`: clears the transcript, then on success holds the
      final segments both as the transcript and on the queue and reports true;
      on any failure reports false and leaves both empty. */
  function ProcessAudioFile(
    st: TranscriberState,
    input: AudioInput,
    predict: string -> Option<(string, string)>,
    ratio: (string, string) -> real,
    now: real): (r: (bool, TranscriberState))
    ensures !r.0 ==> r.1 == ClearTranscript(st)
    ensures r.0 ==> r.1.transcript == r.1.queue
    ensures r.0 <==> (input.result.Some? &&
              RawSegments(input.result.value, input.turns, Punctuator(predict), now, input.samples, input.rate).Some?)
    ensures r.0 ==> (r.1.transcript ==
              FinalSegments(RawSegments(input.result.value, input.turns, Punctuator(predict), now, input.samples, input.rate).value, ratio))
  {
    var cleared := ClearTranscript(st);
    if input.result.None? then (false, cleared)
    else
      var raw := RawSegments(input.result.value, input.turns, Punctuator(predict), now, input.samples, input.rate);
      if raw.None? then (false, cleared)
      else
        var final := FinalSegments(raw.value, ratio);
        (true, TranscriberState(cleared.transcript + final, cleared.queue + final))
  }
}
