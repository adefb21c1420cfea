/** The alignment helpers of the legacy transcriber: attaching a speaker to
    every aligned word by walking the speaker turns, grouping the words into
    speaker sentences, and collecting the tokenizer ids of numeral and symbol
    tokens. */
module Helpers {
  import opened Text
  import opened Lists

  // ---------------------------------------------------------------------------
  // Word anchors
  // ---------------------------------------------------------------------------

  /** `get_word_ts_anchor`: the end for "end", the midpoint for "mid", and
      the start for "start" or any other option. */
  function WordTsAnchor(s: real, e: real, option: string): (r: real)
    ensures option == "end" ==> r == e
    ensures option == "mid" ==> r == (s + e) / 2.0
    ensures option != "end" && option != "mid" ==> r == s
    ensures s <= e ==> s <= r <= e
  {
    if option == "end" then e
    else if option == "mid" then (s + e) / 2.0
    else s
  }

  /** Python's `int()` on a real: truncation toward zero. */
  function Trunc(x: real): (r: int)
    ensures x >= 0.0 ==> r as real <= x < r as real + 1.0
    ensures x < 0.0 ==> r as real - 1.0 < x <= r as real
  {
    if x >= 0.0 then x.Floor else -((-x).Floor)
  }

  /** Seconds to whole milliseconds, as `int(t * 1000)`. */
  function Ms(t: real): int {
    Trunc(t * 1000.0)
  }

  lemma TruncMonotone(x: real, y: real)
    requires x <= y
    ensures Trunc(x) <= Trunc(y)
  {
  }

  // ---------------------------------------------------------------------------
  // Words to speakers
  // ---------------------------------------------------------------------------

  /** One aligned word, in seconds. */
  datatype WordTs = WordTs(start: real, end: real, text: string)

  /** One speaker turn, in milliseconds. */
  datatype SpeakerTurn = SpeakerTurn(start: real, end: real, speaker: string)

  /** One entry of the word-to-speaker mapping, in milliseconds. */
  datatype WordSpeaker = WordSpeaker(word: string, startTime: int, endTime: int, speaker: string)

  /** The anchor of a word in milliseconds. */
  function Anchor(w: WordTs, option: string): real {
    WordTsAnchor(Ms(w.start) as real, Ms(w.end) as real, option)
  }

  /** The walk's behaviour on one word: from turn `idx`, the first turn at or
      after it whose end is not before `pos`, or the last turn when none is. */
  function Advance(turns: seq<SpeakerTurn>, idx: nat, pos: real): (j: nat)
    requires idx < |turns|
    ensures idx <= j < |turns|
    ensures j == |turns| - 1 || pos <= turns[j].end
    ensures forall k :: idx <= k < j ==> pos > turns[k].end
    decreases |turns| - idx
  {
    if idx == |turns| - 1 || pos <= turns[idx].end then idx
    else Advance(turns, idx + 1, pos)
  }

  /** Where the walk stands after the words `ws`: the turn of their last
      word, or the first turn before any word. */
  function Cursor(ws: seq<WordTs>, turns: seq<SpeakerTurn>, option: string): (j: nat)
    requires turns != []
    ensures j < |turns|
  {
    if ws == [] then 0
    else Advance(turns, Cursor(ws[..|ws| - 1], turns, option), Anchor(ws[|ws| - 1], option))
  }

  /** The turn the walk assigns to word `i`. */
  function WordTurn(words: seq<WordTs>, turns: seq<SpeakerTurn>, option: string, i: nat): (j: nat)
    requires turns != [] && i < |words|
    ensures j < |turns|
  {
    Cursor(words[..i + 1], turns, option)
  }

  /** Each word's turn is the first turn, from the previous word's turn on,
      that does not end before the word's anchor; or the last turn. So the
      walk never moves backwards. */
  lemma WordTurnFirstFit(words: seq<WordTs>, turns: seq<SpeakerTurn>, option: string, i: nat)
    requires turns != [] && i < |words|
    ensures var from := if i == 0 then 0 else WordTurn(words, turns, option, i - 1);
            var j := WordTurn(words, turns, option, i);
            var pos := Anchor(words[i], option);
            && from <= j
            && (j == |turns| - 1 || pos <= turns[j].end)
            && (forall k :: from <= k < j ==> pos > turns[k].end)
  {
    var p := words[..i + 1];
    assert p[..|p| - 1] == words[..i];
    assert p[|p| - 1] == words[i];
    var from := Cursor(words[..i], turns, option);
    assert WordTurn(words, turns, option, i) == Advance(turns, from, Anchor(words[i], option));
    if i > 0 {
      assert words[..i] == words[..(i - 1) + 1];
      assert from == WordTurn(words, turns, option, i - 1);
    } else {
      assert from == 0;
    }
  }

  /** The walk's inner loop for one word at anchor `pos`: step to the next
      turn while the anchor lies past the current end `e`; on the last turn
      the end becomes the word's own end `we`. */
  method AdvanceTurn(turns: seq<SpeakerTurn>, idx0: nat, e0: real, pos: real, we: real)
    returns (idx: nat, e: real)
    requires idx0 < |turns|
    requires idx0 < |turns| - 1 ==> e0 == turns[idx0].end
    requires pos <= we
    ensures idx == Advance(turns, idx0, pos)
    ensures idx < |turns| - 1 ==> e == turns[idx].end
  {
    var last := |turns| - 1;
    idx, e := idx0, e0;
    while pos > e
      invariant idx <= last
      invariant idx < last ==> e == turns[idx].end
      invariant Advance(turns, idx, pos) == Advance(turns, idx0, pos)
      decreases last - idx, if pos > e then 1 else 0
    {
      idx := idx + 1;
      if idx > last {
        idx := last;
      }
      e := turns[idx].end;
      if idx == last {
        e := we;
      }
    }
  }

  /** One more word moves the cursor on from where the previous words left
      it. */
  lemma CursorStep(words: seq<WordTs>, turns: seq<SpeakerTurn>, option: string, n: nat)
    requires turns != [] && n < |words|
    ensures WordTurn(words, turns, option, n)
            == Advance(turns, Cursor(words[..n], turns, option), Anchor(words[n], option))
  {
    var p := words[..n + 1];
    assert p[..n] == words[..n] && p[n] == words[n];
  }

  /** The walk cannot get stuck: a word's anchor does not pass its own end. */
  predicate AnchorsWithinWords(words: seq<WordTs>, option: string) {
    forall i :: 0 <= i < |words| ==> Anchor(words[i], option) <= Ms(words[i].end) as real
  }

  /** Entry `m` records word `w`, its times truncated to milliseconds, and
      `speaker`. */
  predicate MapsWord(m: WordSpeaker, w: WordTs, speaker: string) {
    m.word == w.text && m.startTime == Ms(w.start) && m.endTime == Ms(w.end) && m.speaker == speaker
  }

  /** One round of the mapping loop: advance the cursor for word `n` and
      record the word with the speaker of the turn reached. */
  method MapWord(words: seq<WordTs>, turns: seq<SpeakerTurn>, option: string, n: nat, idx0: nat, e0: real)
    returns (idx: nat, e: real, entry: WordSpeaker)
    requires turns != [] && n < |words|
    requires Anchor(words[n], option) <= Ms(words[n].end) as real
    requires idx0 == Cursor(words[..n], turns, option)
    requires idx0 < |turns| - 1 ==> e0 == turns[idx0].end
    ensures idx == WordTurn(words, turns, option, n)
    ensures idx < |turns| - 1 ==> e == turns[idx].end
    ensures MapsWord(entry, words[n], turns[WordTurn(words, turns, option, n)].speaker)
  {
    var w := words[n];
    var ws := Ms(w.start);
    var we := Ms(w.end);
    var pos := WordTsAnchor(ws as real, we as real, option);
    idx, e := AdvanceTurn(turns, idx0, e0, pos, we as real);
    CursorStep(words, turns, option, n);
    entry := WordSpeaker(w.text, ws, we, turns[idx].speaker);
  }

  /** `get_words_speaker_mapping`. The turn cursor and the current end are the
      loop's state. The source loops forever when a word's anchor passes its
      end on the last turn, so that case is excluded. */
  method WordsSpeakerMapping(words: seq<WordTs>, turns: seq<SpeakerTurn>, option: string)
    returns (mapping: seq<WordSpeaker>)
    requires turns != []
    requires AnchorsWithinWords(words, option)
    ensures |mapping| == |words|
    ensures forall i :: 0 <= i < |words| ==>
              MapsWord(mapping[i], words[i], turns[WordTurn(words, turns, option, i)].speaker)
  {
    var e := turns[0].end;
    var idx := 0;
    mapping := [];
    var n := 0;
    while n < |words|
      invariant 0 <= n <= |words|
      invariant idx == Cursor(words[..n], turns, option)
      invariant idx < |turns| - 1 ==> e == turns[idx].end
      invariant |mapping| == n
      invariant forall i {:trigger mapping[i]} :: 0 <= i < n ==>
                  MapsWord(mapping[i], words[i], turns[WordTurn(words, turns, option, i)].speaker)
    {
      var entry;
      idx, e, entry := MapWord(words, turns, option, n, idx, e);
      mapping := mapping + [entry];
      n := n + 1;
    }
  }

  /** One pass of the inner loop's body as written: the next turn, capped at
      the last, whose end becomes the word's end `we` on the last turn. */
  function InnerStep(turns: seq<SpeakerTurn>, idx: nat, we: real): (r: (nat, real))
    requires idx < |turns|
    ensures idx < |turns| - 1 ==> r.0 == idx + 1
    ensures idx == |turns| - 1 ==> r.0 == idx
    ensures r.0 == |turns| - 1 ==> r.1 == we
    ensures r.0 < |turns| - 1 ==> r.1 == turns[r.0].end
  {
    var j := if idx + 1 > |turns| - 1 then |turns| - 1 else idx + 1;
    (j, if j == |turns| - 1 then we else turns[j].end)
  }

  /** On the last turn a word whose anchor passes its own end never leaves
      the inner loop: the body maps the state to itself and the loop
      condition `pos > e` still holds. */
  lemma LastTurnSpins(turns: seq<SpeakerTurn>, e: real, pos: real, we: real)
    requires turns != [] && pos > e && pos > we
    ensures var (idx1, e1) := InnerStep(turns, |turns| - 1, we);
            && idx1 == |turns| - 1 && e1 == we && pos > e1
            && InnerStep(turns, idx1, we) == (idx1, e1)
  {
  }

  /** The smallest such input: one turn ending at 1 s and one word from 2 s
      to 1 s, anchored at its start. */
  lemma ReversedWordSpins()
    ensures var turns := [SpeakerTurn(0.0, 1000.0, "A")];
            var w := WordTs(2.0, 1.0, "x");
            var pos := Anchor(w, "start");
            && pos > turns[0].end
            && InnerStep(turns, 0, Ms(w.end) as real) == (0, Ms(w.end) as real)
            && pos > Ms(w.end) as real
  {
    var w := WordTs(2.0, 1.0, "x");
    assert Ms(w.start) == 2000 && Ms(w.end) == 1000;
  }

  /** The inner loop as evidently intended: the walk stops at the last turn,
      which takes every word left, so it ends for every anchor. */
  method AdvanceTurnBounded(turns: seq<SpeakerTurn>, idx0: nat, e0: real, pos: real)
    returns (idx: nat, e: real)
    requires idx0 < |turns|
    requires idx0 < |turns| - 1 ==> e0 == turns[idx0].end
    ensures idx == Advance(turns, idx0, pos)
    ensures idx < |turns| - 1 ==> e == turns[idx].end
  {
    var last := |turns| - 1;
    idx, e := idx0, e0;
    while idx < last && pos > e
      invariant idx <= last
      invariant idx < last ==> e == turns[idx].end
      invariant Advance(turns, idx, pos) == Advance(turns, idx0, pos)
      decreases last - idx
    {
      idx := idx + 1;
      e := turns[idx].end;
    }
  }

  /** One round of the mapping loop with the bounded inner loop. */
  method MapWordBounded(words: seq<WordTs>, turns: seq<SpeakerTurn>, option: string, n: nat, idx0: nat, e0: real)
    returns (idx: nat, e: real, entry: WordSpeaker)
    requires turns != [] && n < |words|
    requires idx0 == Cursor(words[..n], turns, option)
    requires idx0 < |turns| - 1 ==> e0 == turns[idx0].end
    ensures idx == WordTurn(words, turns, option, n)
    ensures idx < |turns| - 1 ==> e == turns[idx].end
    ensures MapsWord(entry, words[n], turns[WordTurn(words, turns, option, n)].speaker)
  {
    var w := words[n];
    idx, e := AdvanceTurnBounded(turns, idx0, e0, Anchor(w, option));
    CursorStep(words, turns, option, n);
    entry := WordSpeaker(w.text, Ms(w.start), Ms(w.end), turns[idx].speaker);
  }

  /** `get_words_speaker_mapping` with the bounded inner loop: defined for
      every list of words, and on the inputs where the source ends it gives
      the same mapping as `WordsSpeakerMapping`. */
  method WordsSpeakerMappingBounded(words: seq<WordTs>, turns: seq<SpeakerTurn>, option: string)
    returns (mapping: seq<WordSpeaker>)
    requires turns != []
    ensures |mapping| == |words|
    ensures forall i :: 0 <= i < |words| ==>
              MapsWord(mapping[i], words[i], turns[WordTurn(words, turns, option, i)].speaker)
  {
    var e := turns[0].end;
    var idx := 0;
    mapping := [];
    var n := 0;
    while n < |words|
      invariant 0 <= n <= |words|
      invariant idx == Cursor(words[..n], turns, option)
      invariant idx < |turns| - 1 ==> e == turns[idx].end
      invariant |mapping| == n
      invariant forall i {:trigger mapping[i]} :: 0 <= i < n ==>
                  MapsWord(mapping[i], words[i], turns[WordTurn(words, turns, option, i)].speaker)
    {
      var entry;
      idx, e, entry := MapWordBounded(words, turns, option, n, idx, e);
      mapping := mapping + [entry];
      n := n + 1;
    }
  }

  // ---------------------------------------------------------------------------
  // Words to sentences
  // ---------------------------------------------------------------------------

  /** One sentence of the speaker mapping. */
  datatype Sentence = Sentence(speaker: string, startTime: real, endTime: real, text: string)

  /** The label a sentence carries for speaker `spk`. */
  function SpeakerLabel(spk: string): string {
    "Speaker " + spk
  }

  /** A new sentence begins at word `w` when the speaker changes or the
      sentence-break test holds for the text with `w` appended. */
  predicate StartsNew(cur: Sentence, prev: string, w: WordSpeaker, breaks: string -> bool) {
    w.speaker != prev || breaks(cur.text + " " + w.word)
  }

  /** The grouping loop from the sentence being built, `cur`, and the speaker
      of the previous word, over the remaining words. */
  function SentencesFrom(cur: Sentence, prev: string, words: seq<WordSpeaker>, breaks: string -> bool): (r: seq<Sentence>)
    ensures r != []
    ensures r[0].speaker == cur.speaker && r[0].startTime == cur.startTime
    ensures StartsWith(r[0].text, cur.text)
    decreases |words|
  {
    if words == [] then [cur]
    else
      var w := words[0];
      if StartsNew(cur, prev, w, breaks) then
        var next := Sentence(SpeakerLabel(w.speaker), w.startTime as real, w.endTime as real, w.word + " ");
        [cur] + SentencesFrom(next, w.speaker, words[1..], breaks)
      else
        var next := cur.(endTime := w.endTime as real, text := cur.text + w.word + " ");
        var r := SentencesFrom(next, w.speaker, words[1..], breaks);
        assert StartsWith(r[0].text, cur.text) by {
          assert r[0].text[..|next.text|] == next.text;
          assert next.text[..|cur.text|] == cur.text;
        }
        r
  }

  /** `get_sentences_speaker_mapping`: the first sentence is opened from the
      first turn with an empty text; `breaks` stands for the sentence
      tokenizer's break test. */
  function SentencesSpeakerMapping(words: seq<WordSpeaker>, turns: seq<SpeakerTurn>, breaks: string -> bool): (r: seq<Sentence>)
    requires turns != []
    ensures r != []
    ensures r[0].speaker == SpeakerLabel(turns[0].speaker) && r[0].startTime == turns[0].start
  {
    var first := Sentence(SpeakerLabel(turns[0].speaker), turns[0].start, turns[0].end, "");
    SentencesFrom(first, turns[0].speaker, words, breaks)
  }

  /** Every word followed by one space, in order. */
  function SpacedWords(words: seq<WordSpeaker>): string {
    if words == [] then "" else words[0].word + " " + SpacedWords(words[1..])
  }

  function ConcatTexts(ss: seq<Sentence>): string {
    if ss == [] then "" else ss[0].text + ConcatTexts(ss[1..])
  }

  lemma {:induction false} SentencesFromTexts(cur: Sentence, prev: string, words: seq<WordSpeaker>, breaks: string -> bool)
    ensures ConcatTexts(SentencesFrom(cur, prev, words, breaks)) == cur.text + SpacedWords(words)
    decreases |words|
  {
    if words != [] {
      var w := words[0];
      if StartsNew(cur, prev, w, breaks) {
        var next := Sentence(SpeakerLabel(w.speaker), w.startTime as real, w.endTime as real, w.word + " ");
        SentencesFromTexts(next, w.speaker, words[1..], breaks);
        assert ([cur] + SentencesFrom(next, w.speaker, words[1..], breaks))[1..] ==
               SentencesFrom(next, w.speaker, words[1..], breaks);
      } else {
        var next := cur.(endTime := w.endTime as real, text := cur.text + w.word + " ");
        SentencesFromTexts(next, w.speaker, words[1..], breaks);
      }
    }
  }

  /** The sentences' texts, concatenated, are the words each followed by a
      space: no word is lost, repeated or reordered. */
  lemma SentencesCoverWords(words: seq<WordSpeaker>, turns: seq<SpeakerTurn>, breaks: string -> bool)
    requires turns != []
    ensures ConcatTexts(SentencesSpeakerMapping(words, turns, breaks)) == SpacedWords(words)
  {
    var first := Sentence(SpeakerLabel(turns[0].speaker), turns[0].start, turns[0].end, "");
    SentencesFromTexts(first, turns[0].speaker, words, breaks);
    assert "" + SpacedWords(words) == SpacedWords(words);
  }

  /** How many words change speaker relative to the word before (the first
      word is compared with `prev`). */
  function SpeakerChanges(prev: string, words: seq<WordSpeaker>): nat
    decreases |words|
  {
    if words == [] then 0
    else (if words[0].speaker != prev then 1 else 0) + SpeakerChanges(words[0].speaker, words[1..])
  }

  lemma {:induction false} SentencesFromCount(cur: Sentence, prev: string, words: seq<WordSpeaker>, breaks: string -> bool)
    requires forall t :: !breaks(t)
    ensures |SentencesFrom(cur, prev, words, breaks)| == 1 + SpeakerChanges(prev, words)
    decreases |words|
  {
    if words != [] {
      var w := words[0];
      assert !breaks(cur.text + " " + w.word);
      if StartsNew(cur, prev, w, breaks) {
        var next := Sentence(SpeakerLabel(w.speaker), w.startTime as real, w.endTime as real, w.word + " ");
        SentencesFromCount(next, w.speaker, words[1..], breaks);
      } else {
        var next := cur.(endTime := w.endTime as real, text := cur.text + w.word + " ");
        SentencesFromCount(next, w.speaker, words[1..], breaks);
      }
    }
  }

  /** Without sentence breaks, a new sentence starts exactly at each change of
      speaker. */
  lemma SentencesPerSpeakerChange(words: seq<WordSpeaker>, turns: seq<SpeakerTurn>, breaks: string -> bool)
    requires turns != []
    requires forall t :: !breaks(t)
    ensures |SentencesSpeakerMapping(words, turns, breaks)| == 1 + SpeakerChanges(turns[0].speaker, words)
  {
    var first := Sentence(SpeakerLabel(turns[0].speaker), turns[0].start, turns[0].end, "");
    SentencesFromCount(first, turns[0].speaker, words, breaks);
  }

  /** Sentence `s` was opened by word `w`: it carries the word's speaker label
      and start time. */
  predicate OpenedBy(s: Sentence, w: WordSpeaker) {
    s.speaker == SpeakerLabel(w.speaker) && s.startTime == w.startTime as real
  }

  predicate OpenedByOneOf(s: Sentence, words: seq<WordSpeaker>) {
    exists i :: 0 <= i < |words| && OpenedBy(s, words[i])
  }

  lemma OpenedByOneOfTail(s: Sentence, words: seq<WordSpeaker>)
    requires words != [] && OpenedByOneOf(s, words[1..])
    ensures OpenedByOneOf(s, words)
  {
    var i :| 0 <= i < |words[1..]| && OpenedBy(s, words[1..][i]);
    assert OpenedBy(s, words[i + 1]);
  }

  /** Every sentence after the first was opened by one of the words and holds
      at least that word. */
  lemma {:induction false} SentencesFromLater(cur: Sentence, prev: string, words: seq<WordSpeaker>, breaks: string -> bool)
    ensures forall k :: 1 <= k < |SentencesFrom(cur, prev, words, breaks)| ==>
              && SentencesFrom(cur, prev, words, breaks)[k].text != ""
              && OpenedByOneOf(SentencesFrom(cur, prev, words, breaks)[k], words)
    decreases |words|
  {
    if words != [] {
      var w := words[0];
      var rest := words[1..];
      if StartsNew(cur, prev, w, breaks) {
        var next := Sentence(SpeakerLabel(w.speaker), w.startTime as real, w.endTime as real, w.word + " ");
        SentencesFromLater(next, w.speaker, rest, breaks);
        var tail := SentencesFrom(next, w.speaker, rest, breaks);
        assert SentencesFrom(cur, prev, words, breaks) == [cur] + tail;
        forall k | 0 <= k < |tail|
          ensures tail[k].text != "" && OpenedByOneOf(tail[k], words)
        {
          if k == 0 {
            assert |tail[0].text| >= |next.text| > 0;
            assert OpenedBy(tail[0], words[0]);
          } else {
            OpenedByOneOfTail(tail[k], words);
          }
        }
      } else {
        var next := cur.(endTime := w.endTime as real, text := cur.text + w.word + " ");
        SentencesFromLater(next, w.speaker, rest, breaks);
        var r := SentencesFrom(next, w.speaker, rest, breaks);
        forall k | 1 <= k < |r|
          ensures OpenedByOneOf(r[k], words)
        {
          OpenedByOneOfTail(r[k], words);
        }
      }
    }
  }

  // ---------------------------------------------------------------------------
  // Numeral and symbol tokens
  // ---------------------------------------------------------------------------

  /** The characters that mark a token as a numeral or symbol token. */
  const NumeralSymbols: string := "0123456789%$£"

  predicate HasNumeralSymbol(token: string) {
    exists i :: 0 <= i < |token| && token[i] in NumeralSymbols
  }

  /** The ids of the numeral and symbol tokens of a vocabulary, in its order. */
  function NumeralIds(vocab: seq<(string, int)>): (r: seq<int>)
    ensures |r| <= |vocab|
    ensures forall i :: 0 <= i < |r| ==>
              exists k :: 0 <= k < |vocab| && vocab[k].1 == r[i] && HasNumeralSymbol(vocab[k].0)
    ensures forall k :: 0 <= k < |vocab| && HasNumeralSymbol(vocab[k].0) ==> vocab[k].1 in r
  {
    if vocab == [] then []
    else
      var rest := NumeralIds(vocab[1..]);
      assert forall k :: 1 <= k < |vocab| ==> vocab[k] == vocab[1..][k - 1];
      if HasNumeralSymbol(vocab[0].0) then [vocab[0].1] + rest else rest
  }

  /** The ids of consecutive vocabulary parts come out in the parts' order:
      with `NumeralIdsSingle` this gives one id per matching entry, in
      vocabulary order. */
  lemma {:induction false} NumeralIdsAppend(a: seq<(string, int)>, b: seq<(string, int)>)
    ensures NumeralIds(a + b) == NumeralIds(a) + NumeralIds(b)
  {
    if a == [] {
      assert a + b == b;
    } else {
      assert (a + b)[1..] == a[1..] + b;
      NumeralIdsAppend(a[1..], b);
    }
  }

  /** One vocabulary entry gives its id exactly when its token holds a
      numeral or symbol character. */
  lemma NumeralIdsSingle(entry: (string, int))
    ensures NumeralIds([entry]) == (if HasNumeralSymbol(entry.0) then [entry.1] else [])
  {
  }

  /** `find_numeral_symbol_tokens`: -1 followed by the ids of exactly the
      vocabulary tokens that hold a digit, '%', '$' or '£'. */
  function FindNumeralSymbolTokens(vocab: seq<(string, int)>): (r: seq<int>)
    ensures r != [] && r[0] == -1
    ensures forall i :: 1 <= i < |r| ==>
              exists k :: 0 <= k < |vocab| && vocab[k].1 == r[i] && HasNumeralSymbol(vocab[k].0)
    ensures forall k :: 0 <= k < |vocab| && HasNumeralSymbol(vocab[k].0) ==> vocab[k].1 in r[1..]
    ensures r[1..] == NumeralIds(vocab)
  {
    var ids := NumeralIds(vocab);
    assert ([-1] + ids)[1..] == ids;
    assert forall i :: 1 <= i < |ids| + 1 ==> ([-1] + ids)[i] == ids[i - 1];
    [-1] + ids
  }
}
