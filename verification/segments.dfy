/** The legacy transcriber's segment post-processing: merging consecutive
    segments of one speaker and dropping near-duplicate segments per speaker. */
module Segments {
  import opened Text
  import opened Sorting
  import opened Lists

  /** A segment as the legacy transcriber builds it; `timestamp` is the wall
      clock time at which the segment was produced. */
  datatype Segment = Segment(text: string, speaker: string, start: real, end: real, timestamp: real)

  // ---------------------------------------------------------------------------
  // Merging
  // ---------------------------------------------------------------------------

  /** The largest gap, in seconds, across which two segments still merge. */
  const MergeGap: real := 0.75

  /** The order segments are merged in: ascending start. */
  function ByStart(): ((Segment, Segment) -> bool) {
    (a: Segment, b: Segment) => a.start <= b.start
  }

  lemma ByStartIsTotalPreorder()
    ensures TotalPreorder(ByStart())
  {
  }

  predicate StartsAscending(s: seq<Segment>) {
    forall i, j :: 0 <= i < j < |s| ==> s[i].start <= s[j].start
  }

  /** `sorted(segments, key=lambda x: x['start'])`. */
  function SortByStart(s: seq<Segment>): (r: seq<Segment>)
    ensures StartsAscending(r)
    ensures multiset(r) == multiset(s)
    ensures |r| == |s|
  {
    ByStartIsTotalPreorder();
    var r := Sort(s, ByStart());
    assert forall i, j :: 0 <= i < j < |r| ==> ByStart()(r[i], r[j]);
    r
  }

  /** `next` is folded into the segment being built when it has the same
      speaker and starts at most `MergeGap` after the built segment ends. */
  predicate Continues(cur: Segment, next: Segment) {
    next.speaker == cur.speaker && next.start - cur.end <= MergeGap
  }

  /** Folding `next` in: its text is appended after a space and its end is
      taken, even when it is earlier than the current end. */
  function Absorb(cur: Segment, next: Segment): Segment {
    cur.(text := cur.text + " " + next.text, end := next.end)
  }

  /** The merge loop from the segment being built, `cur`, over the remaining
      sorted segments. */
  function MergeRun(cur: Segment, rest: seq<Segment>): (r: seq<Segment>)
    requires StartsAscending(rest)
    requires rest == [] || cur.start <= rest[0].start
    ensures r != [] && |r| <= |rest| + 1
    ensures r[0].start == cur.start && r[0].speaker == cur.speaker
    ensures StartsAscending(r)
    ensures forall i :: 0 <= i < |r| - 1 ==> !Continues(r[i], r[i + 1])
    decreases |rest|
  {
    if rest == [] then [cur]
    else if Continues(cur, rest[0]) then MergeRun(Absorb(cur, rest[0]), rest[1..])
    else
      var tail := MergeRun(rest[0], rest[1..]);
      assert forall j :: 0 <= j < |tail| ==> rest[0].start <= tail[j].start;
      [cur] + tail
  }

  /** `merge_segments`: sorts by start, then merges runs of one speaker whose
      gaps stay within `MergeGap`. The output is ordered by start, and no two
      neighbours could have been merged. */
  function Merge(segments: seq<Segment>): (r: seq<Segment>)
    ensures r == [] <==> segments == []
    ensures |r| <= |segments|
    ensures StartsAscending(r)
    ensures forall i :: 0 <= i < |r| - 1 ==>
              r[i].speaker != r[i + 1].speaker || r[i + 1].start - r[i].end > MergeGap
  {
    if segments == [] then []
    else
      var sorted := SortByStart(segments);
      MergeRun(sorted[0], sorted[1..])
  }

  // ---------------------------------------------------------------------------
  // The groups a merge collapses
  // ---------------------------------------------------------------------------

  /** Two neighbours in start order that end up in one merged segment. */
  predicate Linked(a: Segment, b: Segment) {
    b.speaker == a.speaker && b.start - a.end <= MergeGap
  }

  /** Every neighbour pair of `g` is linked. */
  predicate Chained(g: seq<Segment>) {
    forall i :: 0 <= i < |g| - 1 ==> Linked(g[i], g[i + 1])
  }

  function Texts(g: seq<Segment>): (ts: seq<string>)
    ensures |ts| == |g|
    ensures forall i :: 0 <= i < |g| ==> ts[i] == g[i].text
  {
    if g == [] then [] else [g[0].text] + Texts(g[1..])
  }

  /** One merged segment made from a group: the first member's fields, the
      members' texts joined by spaces and the last member's end. */
  function Collapse(g: seq<Segment>): Segment
    requires g != []
  {
    g[0].(text := Join(" ", Texts(g)), end := g[|g| - 1].end)
  }

  function CollapseAll(gs: seq<seq<Segment>>): (r: seq<Segment>)
    requires forall k :: 0 <= k < |gs| ==> gs[k] != []
    ensures |r| == |gs|
    ensures forall k :: 0 <= k < |gs| ==> r[k] == Collapse(gs[k])
  {
    if gs == [] then [] else [Collapse(gs[0])] + CollapseAll(gs[1..])
  }

  /** The maximal linked runs of `g + rest`, where `g` is the run begun so far. */
  function GroupsFrom(g: seq<Segment>, rest: seq<Segment>): (gs: seq<seq<Segment>>)
    requires g != []
    ensures gs != []
    ensures forall k :: 0 <= k < |gs| ==> gs[k] != []
    ensures gs[0][0] == g[0]
    decreases |rest|
  {
    if rest == [] then [g]
    else if Linked(g[|g| - 1], rest[0]) then GroupsFrom(g + [rest[0]], rest[1..])
    else [g] + GroupsFrom([rest[0]], rest[1..])
  }

  /** The maximal runs of neighbours in `s` that are linked pairwise. */
  function Groups(s: seq<Segment>): (gs: seq<seq<Segment>>)
    ensures forall k :: 0 <= k < |gs| ==> gs[k] != []
  {
    if s == [] then [] else GroupsFrom([s[0]], s[1..])
  }

  /** The groups partition the list: their concatenation is `g + rest`, each
      is chained, and neighbouring groups are not linked across the boundary. */
  lemma {:induction false} GroupsFromPartition(g: seq<Segment>, rest: seq<Segment>)
    requires g != [] && Chained(g)
    ensures var gs := GroupsFrom(g, rest);
            && Flatten(gs) == g + rest
            && (forall k :: 0 <= k < |gs| ==> Chained(gs[k]))
            && (forall k :: 0 <= k < |gs| - 1 ==> !Linked(gs[k][|gs[k]| - 1], gs[k + 1][0]))
    decreases |rest|
  {
    if rest != [] {
      if Linked(g[|g| - 1], rest[0]) {
        GroupsFromPartition(g + [rest[0]], rest[1..]);
        assert g + [rest[0]] + rest[1..] == g + rest;
      } else {
        GroupsFromPartition([rest[0]], rest[1..]);
        var tail := GroupsFrom([rest[0]], rest[1..]);
        assert GroupsFrom(g, rest) == [g] + tail;
        assert ([g] + tail)[1..] == tail;
        assert [rest[0]] + rest[1..] == rest;
      }
    }
  }

  lemma GroupsPartition(s: seq<Segment>)
    ensures var gs := Groups(s);
            && Flatten(gs) == s
            && (forall k :: 0 <= k < |gs| ==> Chained(gs[k]))
            && (forall k :: 0 <= k < |gs| - 1 ==> !Linked(gs[k][|gs[k]| - 1], gs[k + 1][0]))
  {
    if s != [] {
      GroupsFromPartition([s[0]], s[1..]);
      assert [s[0]] + s[1..] == s;
    }
  }

  lemma {:induction false} ChainedSameSpeaker(g: seq<Segment>)
    requires g != [] && Chained(g)
    ensures g[|g| - 1].speaker == g[0].speaker
    decreases |g|
  {
    if |g| > 1 {
      ChainedSameSpeaker(g[..|g| - 1]);
    }
  }

  lemma {:induction false} AbsorbCollapse(g: seq<Segment>, x: Segment)
    requires g != []
    ensures Absorb(Collapse(g), x) == Collapse(g + [x])
  {
    assert Texts(g + [x]) == Texts(g) + [x.text];
    JoinSnoc(" ", Texts(g), x.text);
  }

  /** The merge loop builds exactly the collapsed groups. */
  lemma {:induction false} MergeRunCollapses(g: seq<Segment>, rest: seq<Segment>)
    requires g != [] && Chained(g)
    requires StartsAscending(rest)
    requires rest == [] || g[0].start <= rest[0].start
    ensures MergeRun(Collapse(g), rest) == CollapseAll(GroupsFrom(g, rest))
    decreases |rest|
  {
    if rest != [] {
      ChainedSameSpeaker(g);
      assert Continues(Collapse(g), rest[0]) == Linked(g[|g| - 1], rest[0]);
      if Linked(g[|g| - 1], rest[0]) {
        AbsorbCollapse(g, rest[0]);
        MergeRunCollapses(g + [rest[0]], rest[1..]);
      } else {
        assert Collapse([rest[0]]) == rest[0];
        MergeRunCollapses([rest[0]], rest[1..]);
        var tail := GroupsFrom([rest[0]], rest[1..]);
        assert CollapseAll([g] + tail) == [Collapse(g)] + CollapseAll(tail) by {
          assert ([g] + tail)[1..] == tail;
        }
      }
    }
  }

  /** `merge_segments` returns one merged segment per maximal linked run of the
      start-sorted input: the run's first start, its last end and its texts
      joined by spaces. */
  lemma MergeIsCollapsedGroups(segments: seq<Segment>)
    ensures Merge(segments) == CollapseAll(Groups(SortByStart(segments)))
  {
    if segments != [] {
      var sorted := SortByStart(segments);
      assert Collapse([sorted[0]]) == sorted[0];
      MergeRunCollapses([sorted[0]], sorted[1..]);
    }
  }

  // ---------------------------------------------------------------------------
  // De-duplication
  // ---------------------------------------------------------------------------

  /** The similarity above which two texts count as duplicates. */
  const SimilarityThreshold: real := 0.85

  /** `is_similar_to_any`: `ratio` stands for difflib's matching ratio, which
      this model leaves uninterpreted. */
  function SimilarToAny(text: string, existing: seq<string>, ratio: (string, string) -> real): (r: bool)
    ensures r <==> exists i :: 0 <= i < |existing| && ratio(text, existing[i]) > SimilarityThreshold
  {
    if existing == [] then false
    else if ratio(text, existing[0]) > SimilarityThreshold then true
    else
      var r := SimilarToAny(text, existing[1..], ratio);
      assert r ==> exists i :: 0 <= i < |existing| && ratio(text, existing[i]) > SimilarityThreshold by {
        if r {
          var i :| 0 <= i < |existing[1..]| && ratio(text, existing[1..][i]) > SimilarityThreshold;
          assert existing[i + 1] == existing[1..][i];
        }
      }
      r
  }

  /** The stripped texts of the kept segments of one speaker, in order. */
  function SeenTexts(kept: seq<Segment>, speaker: string): (ts: seq<string>)
    ensures |ts| <= |kept|
  {
    if kept == [] then []
    else
      var init := SeenTexts(kept[..|kept| - 1], speaker);
      var last := kept[|kept| - 1];
      if last.speaker == speaker then init + [Strip(last.text)] else init
  }

  lemma SeenTextsSnoc(kept: seq<Segment>, x: Segment, speaker: string)
    ensures SeenTexts(kept + [x], speaker) ==
              if x.speaker == speaker then SeenTexts(kept, speaker) + [Strip(x.text)]
              else SeenTexts(kept, speaker)
  {
    assert (kept + [x])[..|kept|] == kept;
  }

  /** Whether segment `s` is kept after the segments in `kept`. */
  predicate Keeps(kept: seq<Segment>, s: Segment, ratio: (string, string) -> real) {
    !IsBlank(s.text) && !SimilarToAny(Strip(s.text), SeenTexts(kept, s.speaker), ratio)
  }

  /** The de-duplicated list, defined over prefixes: the last segment is kept
      when its stripped text is non-empty and not similar to the stripped text
      of any segment of the same speaker kept before it. */
  function DedupSpec(segments: seq<Segment>, ratio: (string, string) -> real): seq<Segment>
  {
    if segments == [] then []
    else
      var prev := DedupSpec(segments[..|segments| - 1], ratio);
      var last := segments[|segments| - 1];
      if Keeps(prev, last, ratio) then prev + [last] else prev
  }

  lemma DedupSpecSnoc(segments: seq<Segment>, x: Segment, ratio: (string, string) -> real)
    ensures DedupSpec(segments + [x], ratio) ==
              var prev := DedupSpec(segments, ratio);
              if Keeps(prev, x, ratio) then prev + [x] else prev
  {
    assert (segments + [x])[..|segments|] == segments;
  }

  /** The map of seen texts agrees with the kept segments. */
  ghost predicate SeenAgrees(seen: map<string, seq<string>>, kept: seq<Segment>) {
    && (forall sp :: sp in seen ==> seen[sp] == SeenTexts(kept, sp))
    && (forall sp :: sp !in seen ==> SeenTexts(kept, sp) == [])
  }

  /** One round of the de-duplication loop. */
  method DedupStep(kept0: seq<Segment>, seen0: map<string, seq<string>>, segment: Segment,
                   ratio: (string, string) -> real)
    returns (kept: seq<Segment>, seen: map<string, seq<string>>)
    requires SeenAgrees(seen0, kept0)
    ensures kept == if Keeps(kept0, segment, ratio) then kept0 + [segment] else kept0
    ensures SeenAgrees(seen, kept)
  {
    kept, seen := kept0, seen0;
    var text := Strip(segment.text);
    if text != [] {
      if segment.speaker !in seen {
        seen := seen[segment.speaker := []];
      }
      assert seen[segment.speaker] == SeenTexts(kept0, segment.speaker);
      if !SimilarToAny(text, seen[segment.speaker], ratio) {
        seen := seen[segment.speaker := seen[segment.speaker] + [text]];
        kept := kept0 + [segment];
        forall sp | sp in seen ensures seen[sp] == SeenTexts(kept, sp) {
          SeenTextsSnoc(kept0, segment, sp);
        }
        forall sp | sp !in seen ensures SeenTexts(kept, sp) == [] {
          SeenTextsSnoc(kept0, segment, sp);
        }
      }
    }
  }

  /** `_deduplicate_segments`, with the per-speaker list of seen texts as a map. */
  method Deduplicate(segments: seq<Segment>, ratio: (string, string) -> real) returns (kept: seq<Segment>)
    ensures kept == DedupSpec(segments, ratio)
  {
    kept := [];
    var seen: map<string, seq<string>> := map[];
    var i := 0;
    while i < |segments|
      invariant 0 <= i <= |segments|
      invariant kept == DedupSpec(segments[..i], ratio)
      invariant SeenAgrees(seen, kept)
    {
      var segment := segments[i];
      assert segments[..i + 1] == segments[..i] + [segment];
      DedupSpecSnoc(segments[..i], segment, ratio);
      kept, seen := DedupStep(kept, seen, segment, ratio);
      i := i + 1;
    }
    assert segments[..|segments|] == segments;
  }

  /** The kept segments are a subsequence of the input. */
  lemma {:induction false} DedupSubsequence(segments: seq<Segment>, ratio: (string, string) -> real)
    ensures IsSubsequence(DedupSpec(segments, ratio), segments)
  {
    if segments != [] {
      var init := segments[..|segments| - 1];
      var last := segments[|segments| - 1];
      var prev := DedupSpec(init, ratio);
      DedupSubsequence(init, ratio);
      assert init + [last] == segments;
      DedupSpecSnoc(init, last, ratio);
      if Keeps(prev, last, ratio) {
        var kept := prev + [last];
        assert kept[..|kept| - 1] == prev;
      } else {
        SubsequenceOfPrefix(prev, init, last);
      }
    }
  }

  /** No kept segment has a blank text. */
  lemma {:induction false} DedupNonBlank(segments: seq<Segment>, ratio: (string, string) -> real)
    ensures var kept := DedupSpec(segments, ratio);
            forall i :: 0 <= i < |kept| ==> !IsBlank(kept[i].text)
  {
    if segments != [] {
      var init := segments[..|segments| - 1];
      var last := segments[|segments| - 1];
      assert init + [last] == segments;
      DedupSpecSnoc(init, last, ratio);
      DedupNonBlank(init, ratio);
    }
  }

  /** No kept segment is similar to an earlier kept segment of its speaker. */
  lemma {:induction false} DedupNoSimilarPair(segments: seq<Segment>, ratio: (string, string) -> real)
    ensures var kept := DedupSpec(segments, ratio);
            forall i, j :: 0 <= i < j < |kept| && kept[i].speaker == kept[j].speaker ==>
              ratio(Strip(kept[j].text), Strip(kept[i].text)) <= SimilarityThreshold
  {
    if segments != [] {
      var init := segments[..|segments| - 1];
      var last := segments[|segments| - 1];
      var prev := DedupSpec(init, ratio);
      assert init + [last] == segments;
      DedupSpecSnoc(init, last, ratio);
      DedupNoSimilarPair(init, ratio);
      if Keeps(prev, last, ratio) {
        var kept := prev + [last];
        var seen := SeenTexts(prev, last.speaker);
        assert forall k :: 0 <= k < |seen| ==> ratio(Strip(last.text), seen[k]) <= SimilarityThreshold;
        forall i | 0 <= i < |prev| && prev[i].speaker == last.speaker
          ensures ratio(Strip(last.text), Strip(prev[i].text)) <= SimilarityThreshold
        {
          SeenTextsHas(prev, i);
        }
        forall i, j | 0 <= i < j < |kept| && kept[i].speaker == kept[j].speaker
          ensures ratio(Strip(kept[j].text), Strip(kept[i].text)) <= SimilarityThreshold
        {
          if j == |prev| {
            assert kept[j] == last && kept[i] == prev[i];
          } else {
            assert kept[j] == prev[j] && kept[i] == prev[i];
          }
        }
      }
    }
  }

  /** Every kept segment's stripped text is among its speaker's seen texts. */
  lemma {:induction false} SeenTextsHas(kept: seq<Segment>, i: nat)
    requires i < |kept|
    ensures exists k :: 0 <= k < |SeenTexts(kept, kept[i].speaker)| &&
              SeenTexts(kept, kept[i].speaker)[k] == Strip(kept[i].text)
    decreases |kept|
  {
    var sp := kept[i].speaker;
    var init := kept[..|kept| - 1];
    if i == |kept| - 1 {
      var ts := SeenTexts(kept, sp);
      assert ts[|ts| - 1] == Strip(kept[i].text);
    } else {
      assert init[i] == kept[i];
      SeenTextsHas(init, i);
      var k :| 0 <= k < |SeenTexts(init, sp)| && SeenTexts(init, sp)[k] == Strip(kept[i].text);
      assert SeenTexts(kept, sp)[k] == SeenTexts(init, sp)[k];
    }
  }

  /** A non-blank segment is dropped only when it duplicates a text its
      speaker already had kept. */
  lemma DedupDropsOnlyDuplicates(segments: seq<Segment>, x: Segment, ratio: (string, string) -> real)
    requires !IsBlank(x.text)
    requires DedupSpec(segments + [x], ratio) == DedupSpec(segments, ratio)
    ensures exists k :: 0 <= k < |SeenTexts(DedupSpec(segments, ratio), x.speaker)| &&
              ratio(Strip(x.text), SeenTexts(DedupSpec(segments, ratio), x.speaker)[k]) > SimilarityThreshold
  {
    DedupSpecSnoc(segments, x, ratio);
    var prev := DedupSpec(segments, ratio);
    assert !Keeps(prev, x, ratio);
  }
}
