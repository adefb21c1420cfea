# Mnemosyne backend, modelled in Dafny

Mnemosyne records meetings from PipeWire audio devices, transcribes them with
speaker labels, summarises them with a language model and exports them as
Obsidian notes. Its backend exists in two generations, and this project
models the core logic of both.

- The legacy backend (`backend/src/audio`, `backend/src/api`,
  `backend/src/services`, `backend/src/llm`) has these parts:
  - the transcriber's chunking, speaker lookup, merging and de-duplication of
    segments (`Transcriber`, `Segments`);
  - the word-to-speaker and sentence mapping helpers (`Helpers`);
  - the session object with its recording life cycle and storage dictionary
    (`LegacySession`);
  - the model-service singleton (`LegacyModels`);
  - the prompt-building summariser with its Ollama/OpenAI routing and its
    extractive fallback (`LegacySummarizer`).
- The `mnemosyne` package has these parts:
  - the session record and its JSON store (`Sessions`);
  - PipeWire device listing and the recording plan (`Capture`);
  - the audio HTTP routes (`AudioRoutes`);
  - the WhisperX engine and the service that owns it (`WhisperEngine`,
    `EngineService`);
  - the WebSocket gateway (`Gateway`);
  - prompt formatting (`Prompts`) and the summarisation service and providers
    (`Summarization`, `Providers`);
  - the Obsidian note template and exporter (`MeetingNote`, `Obsidian`).

Shared helpers live in `Wrappers` (`Option`, `Result`), `Text` (Python's
`strip`, `split`, `join`, `lower`), `Sorting` (an insertion sort) and
`Lists` (subsequences, first occurrence, distinctness). The segment record
and the time-code arithmetic are in `Transcript`.

The following become inputs to the model rather than behaviour of it:
- the file system and the JSON store, as a map from session id to record;
- the clock, as a `now` value;
- uuids, as a `uuid` or `freshId` value;
- subprocesses, as their decoded outcome: the `pw-dump` listing, whether each `pw-record` spawn raises, and the `ffmpeg` conversion;
- the recording directory's creation, as whether `mkdir` raises;
- HTTP replies, as the decoded reply or the failure;
- machine-learning models, as functions from input to output;
- WebSocket sends, as a predicate saying whether each send succeeds, and receives, as the sequence of decoded messages, undecodable texts and the disconnect.

Every operation is a pure function from the state before to the result and
the state after.

## Model

| member | source | states |
|---|---|---|
| Transcript.MinutesSecondsSplit | backend/src/mnemosyne/export/templates.py:60-61 | `start // 60` and `start % 60` truncated together name the whole second `start` falls in, and the seconds field lies in [0, 60) |
| Transcript.TimecodeReadsBack | backend/src/mnemosyne/summarization/prompts.py:33-35 | for a non-negative start the `MM:SS` code is two digit fields around a colon that read back as the minutes and seconds of the start |
| Transcript.PadChars | backend/src/mnemosyne/summarization/prompts.py:35 | a zero-padded number is made of digits and minus signs |
| Transcript.TimecodeChars | backend/src/mnemosyne/summarization/prompts.py:33-35 | a time code is made of digits, colons and minus signs, so it holds no newline and no `]` |
| Transcript.ReadLineOf | backend/src/mnemosyne/export/templates.py:62 | a line written as opening, time code, `] `, speaker, separator and text reads back as those three fields when the speaker holds no colon |
| Segments.ByStartIsTotalPreorder | backend/src/audio/transcriber.py:111 | the sort key used by the merge is a total preorder |
| Segments.SortByStart | backend/src/audio/transcriber.py:111 | the sorted list is a permutation of the input, ascending by start |
| Segments.MergeRun | backend/src/audio/transcriber.py:112-125 | the merge loop's output is non-empty, begins with the run being built, ascends by start, and no two neighbours could still be merged |
| Segments.Merge | backend/src/audio/transcriber.py:103-125 | the merged list is ordered by start and no two neighbours have the same speaker within the merge gap of each other |
| Segments.GroupsFromPartition | backend/src/audio/transcriber.py:113-122 | the linked runs concatenate back to the input, each run is chained, and neighbouring runs are not linked across their boundary |
| Segments.GroupsPartition | backend/src/audio/transcriber.py:113-122 | the maximal linked runs of a list partition it |
| Segments.ChainedSameSpeaker | backend/src/audio/transcriber.py:113 | every segment of a linked run has the run's first speaker |
| Segments.AbsorbCollapse | backend/src/audio/transcriber.py:119-120 | folding a run into its first segment keeps the first start, takes the last end and joins the texts with spaces |
| Segments.MergeRunCollapses | backend/src/audio/transcriber.py:112-125 | the merge loop builds exactly one collapsed segment per linked run |
| Segments.MergeIsCollapsedGroups | backend/src/audio/transcriber.py:103-125 | `merge_segments` returns one segment per maximal linked run of the sorted input, with the run's first start, last end and space-joined texts |
| Segments.SimilarToAny | backend/src/audio/transcriber.py:131-136 | true exactly when the ratio against some seen text exceeds the similarity threshold |
| Segments.SeenTextsSnoc | backend/src/audio/transcriber.py:160-162 | keeping one more segment appends its stripped text to its own speaker's seen list and to no other |
| Segments.DedupSpecSnoc | backend/src/audio/transcriber.py:145-162 | the de-duplication of a list extended by one segment is the de-duplication of the list followed by one keep-or-drop decision |
| Segments.DedupStep | backend/src/audio/transcriber.py:145-162 | one loop round keeps the segment exactly when it is non-blank and not similar to its speaker's seen texts, and keeps the seen map in agreement with the kept list |
| Segments.Deduplicate | backend/src/audio/transcriber.py:138-164 | the loop's result equals the functional de-duplication of the whole input |
| Segments.DedupSubsequence | backend/src/audio/transcriber.py:138-164 | the kept segments are a subsequence of the input |
| Segments.DedupNonBlank | backend/src/audio/transcriber.py:152-154 | no kept segment has a blank text |
| Segments.DedupNoSimilarPair | backend/src/audio/transcriber.py:156-162 | no kept segment is similar to an earlier kept segment of the same speaker |
| Segments.SeenTextsHas | backend/src/audio/transcriber.py:160-162 | every kept segment's stripped text is among its speaker's seen texts |
| Segments.DedupDropsOnlyDuplicates | backend/src/audio/transcriber.py:152-162 | a non-blank input segment is dropped only when it is similar to a text its speaker already had kept |
| Transcriber.ActiveSpeakers | backend/src/audio/transcriber.py:173-177 | the list holds the speakers of exactly the turns whose interval contains the time, and is empty exactly when no turn does |
| Transcriber.ActiveSpeakersAppend | backend/src/audio/transcriber.py:173-177 | the comprehension distributes over concatenation of the turn list, so the speakers keep turn order |
| Transcriber.ActiveSpeakersSingle | backend/src/audio/transcriber.py:173-177 | one turn contributes its speaker exactly once when it is active and nothing otherwise, which fixes the multiplicities `Counter` sees |
| Transcriber.MostCommonFrom | backend/src/audio/transcriber.py:194 | the index found has a count at least that of every element |
| Transcriber.MostCommon | backend/src/audio/transcriber.py:194 | the result is in the list and occurs at least as often as any other element |
| Transcriber.NearestFrom | backend/src/audio/transcriber.py:179-191 | the index found has the least distance to the time, and every earlier index is strictly farther |
| Transcriber.FindSpeakerForTime | backend/src/audio/transcriber.py:166-194 | the default label without turns; otherwise the speaker of one of the turns |
| Transcriber.FindSpeakerActive | backend/src/audio/transcriber.py:173-194 | when some turn contains the time, the result is the speaker of a containing turn, and no speaker has more containing turns |
| Transcriber.FindSpeakerNearest | backend/src/audio/transcriber.py:179-191 | when no turn contains the time, the result is the speaker of the first turn whose nearer end is closest |
| Transcriber.JoinEach | backend/src/audio/transcriber.py:207-210 | one chunk per word group, each the group joined by spaces |
| Transcriber.SplitEach | backend/src/audio/transcriber.py:200 | one word list per chunk, each the chunk split on whitespace |
| Transcriber.ChunkGroupsWords | backend/src/audio/transcriber.py:196-212 | the word groups concatenate back to the words in order, and every group of two or more words fits the maximum length |
| Transcriber.ChunkGroupsEmpty | backend/src/audio/transcriber.py:202-207 | only the first group can be empty, and it is empty exactly when the first word is too long to fit |
| Transcriber.SplitEachJoinEach | backend/src/audio/transcriber.py:200-210 | splitting the joined groups again gives the groups back |
| Transcriber.FlattenAllWords | backend/src/audio/transcriber.py:200-210 | every group of a partition of whitespace-free words holds only such words |
| Transcriber.SplitTextWords | backend/src/audio/transcriber.py:196-212 | splitting every chunk again and concatenating gives the words of the text, in order |
| Transcriber.SplitTextBound | backend/src/audio/transcriber.py:203-207 | every chunk of two or more words is at most the maximum length; a single word may exceed it |
| Transcriber.SplitTextEmptyChunk | backend/src/audio/transcriber.py:202-210 | the first chunk is empty exactly when the first word is longer than the maximum; no later chunk is empty |
| Transcriber.SumLengthsPositive | backend/src/audio/transcriber.py:203 | a word list starting with a non-empty word has a positive total length |
| Transcriber.PunctuatedMarks | backend/src/audio/transcriber.py:220-224 | a one-character label is appended to the chunk exactly when it is `.`, `!` or `?` |
| Transcriber.PunctuateChunks | backend/src/audio/transcriber.py:214-226 | all chunks are punctuated, in order, exactly when the model labels every one of them |
| Transcriber.TimePoint | backend/src/audio/transcriber.py:307-319 | the midpoint of the chunk's two known ends, else the one known end, else 0 |
| Transcriber.NonBlank | backend/src/audio/transcriber.py:290-293 | the chunks kept have non-blank stripped text |
| Transcriber.SegmentFor | backend/src/audio/transcriber.py:290-337 | a segment exists exactly when punctuation succeeds; it carries the punctuated stripped text, the chunk's bounds, the production time, and the speaker found at the chunk's time point |
| Transcriber.AllPresent | backend/src/audio/transcriber.py:286-337 | all values are present exactly when every entry is, and then they are listed in order |
| Transcriber.SegmentsFor | backend/src/audio/transcriber.py:286-337 | one segment per chunk, in order, exactly when every chunk's segment exists |
| Transcriber.SpeakersOf | backend/src/audio/transcriber.py:349-356 | the speakers of the turns, in order |
| Transcriber.MostTalkFrom | backend/src/audio/transcriber.py:349-356 | the index found has talk time at least that of every listed speaker, and strictly more than every speaker listed before it |
| Transcriber.MostTalkTime | backend/src/audio/transcriber.py:349-356 | the result is a speaker of the turns, no speaker has more accumulated talk time, and among speakers tied with it none appears earlier in the turns, as `max` over the dict in insertion order picks |
| Transcriber.FirstSpeakerOfTies | backend/src/audio/transcriber.py:349-356 | a speaker whose talk time ties the chosen one first appears no earlier than it |
| Transcriber.FallbackSegments | backend/src/audio/transcriber.py:338-364 | nothing for a blank text; otherwise a segment exists exactly when punctuation succeeds, and it is one segment holding the punctuated text, from 0 to `samples / rate` (0 for a non-positive rate), credited to the default label without turns or else to `MostTalkTime`, a speaker with maximal talk time |
| Transcriber.FinalSegments | backend/src/audio/transcriber.py:369-378 | zero or one raw segment passes through unchanged; the final list of several is ordered by start, has no blank text, and is a subsequence of the merged list |
| Transcriber.DedupKeepsOrder | backend/src/audio/transcriber.py:374-377 | de-duplicating a start-ordered list keeps it start-ordered and drops blank texts |
| Transcriber.ClearTranscript | backend/src/audio/transcriber.py:410-418 | transcript and queue are both empty afterwards |
| Transcriber.ProcessAudioFile | backend/src/audio/transcriber.py:228-393 | true exactly when the transcription result exists and every chunk is punctuated; the final segments are then both the transcript and the queue; on failure the transcript is left cleared |
| Helpers.WordTsAnchor | backend/src/audio/helpers.py:54-60 | the end for "end", the midpoint for "mid", the start for any other option; for ordered bounds the anchor lies between them |
| Helpers.Trunc | backend/src/audio/helpers.py:70-71 | Python's `int()` of a real: truncation toward zero, never farther than 1 from the input |
| Helpers.TruncMonotone | backend/src/audio/helpers.py:70-71 | truncation to milliseconds preserves the order of times |
| Helpers.Advance | backend/src/audio/helpers.py:76-81 | the turn reached from a cursor is the first one at or after it that does not end before the position, or the last turn |
| Helpers.Cursor | backend/src/audio/helpers.py:64-81 | the cursor after some words lies within the turns |
| Helpers.WordTurn | backend/src/audio/helpers.py:68-88 | each word's turn index lies within the turns |
| Helpers.WordTurnFirstFit | backend/src/audio/helpers.py:76-81 | each word's turn is the first turn from the previous word's turn on whose end is not before the word's anchor, or the last turn, so the walk never moves backwards |
| Helpers.AdvanceTurn | backend/src/audio/helpers.py:76-81 | the inner loop stops at the turn `Advance` names, with the current end of that turn, or the word's own end on the last turn |
| Helpers.CursorStep | backend/src/audio/helpers.py:68-81 | one more word moves the cursor on from where the previous words left it |
| Helpers.MapWord | backend/src/audio/helpers.py:68-88 | one loop round records the word with truncated times and the speaker of the turn the walk reaches |
| Helpers.WordsSpeakerMapping | backend/src/audio/helpers.py:62-90 | one entry per word, in order, each with the word, its millisecond times and the speaker of the turn the walk assigns it |
| Helpers.InnerStep | backend/src/audio/helpers.py:76-81 | one pass of the inner loop moves to the next turn, stays on the last, and takes the word's end as the end on the last turn |
| Helpers.LastTurnSpins | backend/src/audio/helpers.py:76-81 | on the last turn a word whose anchor passes its own end is a fixed point of the loop body with the loop condition still true, so the loop never ends |
| Helpers.ReversedWordSpins | backend/src/audio/helpers.py:62-81 | one turn ending at 1 s and a word from 2 s to 1 s anchored at its start enter the inner loop and spin |
| Helpers.AdvanceTurnBounded | backend/src/audio/helpers.py:76-81 | the inner loop stopped at the last turn ends for every anchor and reaches the turn `Advance` names |
| Helpers.MapWordBounded | backend/src/audio/helpers.py:68-88 | one round of the bounded walk records the word with the speaker of the turn the walk assigns it, for any anchor |
| Helpers.WordsSpeakerMappingBounded | backend/src/audio/helpers.py:62-90 | for every word list, one entry per word with its millisecond times and the speaker of the turn the walk assigns it |
| Helpers.SentencesFrom | backend/src/audio/helpers.py:106-125 | the grouping loop yields at least one sentence, and the first keeps the open sentence's speaker and start and extends its text |
| Helpers.SentencesSpeakerMapping | backend/src/audio/helpers.py:92-125 | at least one sentence, the first opened from the first turn's speaker label and times |
| Helpers.SentencesFromTexts | backend/src/audio/helpers.py:106-125 | the sentences' texts concatenate to the open sentence's text followed by the remaining words, each with a trailing space |
| Helpers.SentencesCoverWords | backend/src/audio/helpers.py:92-125 | the sentences' texts concatenated are the words each followed by a space: no word is lost, repeated or reordered |
| Helpers.SentencesFromCount | backend/src/audio/helpers.py:110-121 | without sentence breaks the grouping loop yields one sentence more than there are speaker changes |
| Helpers.SentencesPerSpeakerChange | backend/src/audio/helpers.py:110-121 | without sentence breaks, a new sentence starts exactly at each change of speaker |
| Helpers.OpenedByOneOfTail | backend/src/audio/helpers.py:110-117 | a sentence opened by a word of a suffix was opened by a word of the whole list |
| Helpers.SentencesFromLater | backend/src/audio/helpers.py:110-121 | every sentence after the first was opened by one of the words, carrying its speaker label and start time, and holds that word |
| Helpers.NumeralIds | backend/src/audio/helpers.py:130-132 | the ids of exactly the vocabulary tokens holding a digit, `%`, `$` or `£` |
| Helpers.NumeralIdsAppend | backend/src/audio/helpers.py:130-132 | the scan distributes over concatenation of the vocabulary, so the ids come in vocabulary order |
| Helpers.NumeralIdsSingle | backend/src/audio/helpers.py:130-132 | one vocabulary entry contributes its id once when its token holds a numeral or symbol, and nothing otherwise |
| Helpers.FindNumeralSymbolTokens | backend/src/audio/helpers.py:127-133 | -1 followed by exactly the ids `NumeralIds` gives, in vocabulary order and one per matching token |
| LegacyModels.NewModelService | backend/src/services/model_service.py:24-34 | the constructor fails with the singleton error exactly when an instance exists; otherwise it starts with no handles |
| LegacyModels.GetInstance | backend/src/services/model_service.py:17-23 | the stored instance when there is one; otherwise a new empty instance, which is stored |
| LegacyModels.GetInstanceIsSingleton | backend/src/services/model_service.py:17-34 | every later call returns the instance of the first, and direct construction afterwards is refused |
| LegacyModels.GetTranscriber | backend/src/services/model_service.py:35-41 | the held transcriber, or a new one that is stored; the summariser is untouched |
| LegacyModels.GetTranscriberStable | backend/src/services/model_service.py:35-41 | a second call returns the same transcriber and changes nothing |
| LegacyModels.GetSummarizer | backend/src/services/model_service.py:42-52 | a new summariser for the provider and model when none is held; otherwise the held one, with its model switched when another is asked for |
| LegacyModels.GetSummarizerAsWritten | backend/src/services/model_service.py:42-52 | fails exactly when no summariser is held, because construction passes an unaccepted `model` keyword; otherwise it agrees with the intended getter |
| LegacyModels.FreshServiceHasNoSummarizerAsWritten | backend/src/services/model_service.py:46 | from the fresh singleton the as-written getter never yields a summariser, while the intended one yields one with the requested model |
| LegacyModels.ReleaseResources | backend/src/services/model_service.py:53-58 | both handles are dropped |
| LegacyModels.ReleaseThenFresh | backend/src/services/model_service.py:35-58 | after a release the getters build new objects, never the ones held before |
| LegacySession.NewSession | backend/src/api/session.py:29-53 | an absent or empty id is replaced by a fresh one; status created, not recording, no devices, model, files, transcript or summary |
| LegacySession.StartRecording | backend/src/api/session.py:112-132 | refused while recording; on capture success it records devices, model and file and is recording; on capture failure the devices and model stay stored and the status is error |
| LegacySession.StopRecording | backend/src/api/session.py:133-150 | refused when not recording; on success it reports the recorded file and moves to processing; on failure the status is error |
| LegacySession.StartThenStop | backend/src/api/session.py:112-150 | a successful start and stop leave the session not recording, processing, with the start's devices, model and file |
| LegacySession.GenerateSummary | backend/src/api/session.py:185-192 | the fixed message for an empty transcript, otherwise the summariser's outcome |
| LegacySession.ProcessWith | backend/src/api/session.py:151-184 | a failed transcription gives error; a failed summary gives error with the transcript kept; success completes the session with transcript, summary and saved file |
| LegacySession.ProcessAudioFile | backend/src/api/session.py:151-192 | succeeds exactly when transcription succeeds and the transcript is empty or its summary succeeds; then the session is completed with the transcript and saved file |
| LegacySession.GenerateSummaryAsWritten | backend/src/api/session.py:185-192 | as written, every non-empty transcript fails to summarise |
| LegacySession.ProcessAudioFileAsWrittenFails | backend/src/api/session.py:151-192 | as written, a successful transcription with segments still ends in the error status with no summary or transcript file, while the intended version succeeds with a working summariser |
| LegacySession.ToApiView | backend/src/api/session.py:69-111 | the view carries the id, status and recording flag, and the transcript's and summary's lengths |
| LegacySession.ToStorageDict | backend/src/api/session.py:221-240 | every field stored under its key |
| LegacySession.FromStorageDict | backend/src/api/session.py:241-262 | fails exactly when the creation time is missing; missing keys take the constructor's defaults |
| LegacySession.StorageRoundTrip | backend/src/api/session.py:221-262 | a session with a non-empty id is read back from its storage dictionary unchanged |
| LegacySession.StorageDefaults | backend/src/api/session.py:241-262 | a dictionary holding only a creation time reads back as a fresh session |
| LegacySummarizer.SegmentLines | backend/src/llm/summarizer.py:20-21 | one `speaker: text` line per segment, in order |
| LegacySummarizer.DetailLevel | backend/src/llm/summarizer.py:24-25 | "detailed" exactly when the transcript has fewer than 1000 words |
| LegacySummarizer.InstructionLines | backend/src/llm/summarizer.py:27-72 | the closing lines open with a blank line and the `INSTRUCTIONS:` marker |
| LegacySummarizer.PromptText | backend/src/llm/summarizer.py:27-72 | the prompt is the transcript text between the head and the instructions, each joined to it by a newline |
| LegacySummarizer.OpenAIPath | backend/src/llm/summarizer.py:178-197 | the no-key message without a key; otherwise the reply, or the request's failure as an error message |
| LegacySummarizer.SummarizeTranscript | backend/src/llm/summarizer.py:14-106 | an empty transcript gives the fixed message; a non-Ollama provider goes to OpenAI; a usable Ollama answer is returned; any other Ollama outcome falls back to OpenAI with a key, else to the extractive summary of the prompt |
| LegacySummarizer.CollectKeepsText | backend/src/llm/summarizer.py:111-122 | every line the scan keeps is a text line of the input |
| LegacySummarizer.CollectPlain | backend/src/llm/summarizer.py:121-122 | text lines pass through an open scan unchanged |
| LegacySummarizer.MarkerKinds | backend/src/llm/summarizer.py:114-117 | an empty line reads as blank, `TRANSCRIPT:` as the start marker and `INSTRUCTIONS:` as the stop marker |
| LegacySummarizer.StripNoop | backend/src/llm/summarizer.py:114 | stripping leaves a string alone when both its ends are non-space |
| LegacySummarizer.SegmentLineNotBlank | backend/src/llm/summarizer.py:20-21 | a segment line never reads as blank |
| LegacySummarizer.SegmentLinesAreText | backend/src/llm/summarizer.py:113-122 | segment lines without newlines or marker prefixes all read as text lines |
| LegacySummarizer.HeadFree | backend/src/llm/summarizer.py:27-29 | the head lines hold no newline when the introduction holds none |
| LegacySummarizer.LinesFree | backend/src/llm/summarizer.py:27-72 | every prompt line is newline-free when its parts are |
| LegacySummarizer.PromptSplits | backend/src/llm/summarizer.py:27-72 | splitting the prompt on newlines gives its lines back |
| LegacySummarizer.HeadSkipped | backend/src/llm/summarizer.py:113-116 | the scan skips the lines before the start marker and is open after it |
| LegacySummarizer.InstructionsStop | backend/src/llm/summarizer.py:117-119 | an open scan reaching a blank line and then the instructions marker collects nothing more |
| LegacySummarizer.PromptRoundTrip | backend/src/llm/summarizer.py:20-122 | read back from a prompt built around a transcript, the fallback recovers exactly the transcript's lines, in order |
| LegacySummarizer.ScanRoundTrip | backend/src/llm/summarizer.py:111-122 | the scan over head, text lines and closing lines yields exactly the text lines |
| LegacySummarizer.Unique | backend/src/llm/summarizer.py:127-134 | every kept line is an input line with a non-empty key not seen before, and no two kept lines share a key |
| LegacySummarizer.UniqueComplete | backend/src/llm/summarizer.py:127-134 | every input line with a non-empty, unseen key is represented by a kept line with the same key |
| LegacySummarizer.SegmentLineSpeaker | backend/src/llm/summarizer.py:136-141 | a segment's line holds a colon and reports the segment's stripped speaker, when the label holds no colon of its own |
| LegacySummarizer.Samples | backend/src/llm/summarizer.py:143-151 | min(3, n) samples: the first line, then the middle one, then the last |
| LegacySummarizer.FirstWords | backend/src/llm/summarizer.py:164-165 | at most ten words |
| LegacySummarizer.TopicIsPrefix | backend/src/llm/summarizer.py:158-166 | a topic reads back as at most ten words, the first words of the sample's text after its colon |
| LegacySummarizer.Framed | backend/src/llm/summarizer.py:153-176 | a text built as head, body and tail starts with the head and ends with the tail |
| LegacySummarizer.SimpleSummary | backend/src/llm/summarizer.py:108-176 | the summary starts with the overview heading and ends with the fixed closing sections |
| Sessions.ParseStatus | backend/src/mnemosyne/models/session.py:14-21 | only the five stored values are accepted, each as its own status |
| Sessions.StatusRoundTrip | backend/src/mnemosyne/models/session.py:14-21 | every status reads back as itself |
| Sessions.ShortId | backend/src/mnemosyne/models/session.py:23 | a prefix of the uuid of at most eight characters, exactly eight for a long enough uuid |
| Sessions.NewSession | backend/src/mnemosyne/models/session.py:22-33 | a fresh record: short id, given name, created, both times now, and empty audio, transcript, summary, notes and participants |
| Sessions.Save | backend/src/mnemosyne/models/session.py:34-42 | the update time is refreshed and the record stored under its id |
| Sessions.Load | backend/src/mnemosyne/models/session.py:44-48 | present exactly when the file exists, and then its record |
| Sessions.LoadAfterSave | backend/src/mnemosyne/models/session.py:34-48 | loading after saving gives the saved record back, and no other session's file changes |
| Sessions.NewestFirstIsTotalPreorder | backend/src/mnemosyne/services/session_service.py:28 | the newest-first order is a total preorder |
| Sessions.Loaded | backend/src/mnemosyne/services/session_service.py:22-27 | only records whose files loaded |
| Sessions.ListSessions | backend/src/mnemosyne/services/session_service.py:20-29 | newest first, and a permutation of the loaded records |
| Sessions.LoadedExactly | backend/src/mnemosyne/services/session_service.py:22-27 | every file that loads is listed, and nothing else is |
| Sessions.GetSession | backend/src/mnemosyne/services/session_service.py:31-37 | a record exactly when the id has one, and then that record, which carries the requested id in a well-keyed store |
| Sessions.GetSessionFile | backend/src/mnemosyne/services/session_service.py:31-37 | a missing file gives none, a malformed file raises, and a well-formed file gives its record |
| Sessions.MalformedListedNotGot | backend/src/mnemosyne/services/session_service.py:20-37 | a malformed file makes `get_session` raise while `list_sessions` skips it; a well-formed one is both returned and listed |
| Sessions.CreateSession | backend/src/mnemosyne/services/session_service.py:38-44 | the new record has the name and created status, can be read back, and no other file changes |
| Sessions.UpdateSession | backend/src/mnemosyne/services/session_service.py:45-49 | the saved record reads back with the refreshed update time |
| Sessions.Modify | backend/src/mnemosyne/services/session_service.py:50-129 | an unknown id changes nothing and gives none; otherwise the changed record with a fresh update time is written under its own id |
| Sessions.ModifyKeepsKeys | backend/src/mnemosyne/services/session_service.py:50-129 | in a well-keyed store a setter rewrites the file it read, keeps the set of files and keeps the store well keyed |
| Sessions.CreateKeepsKeys | backend/src/mnemosyne/services/session_service.py:38-44 | creating a session keeps the store well keyed |
| Sessions.RenameSession | backend/src/mnemosyne/services/session_service.py:50-58 | only the name and update time change, and an unknown id changes nothing |
| Sessions.UpdateNotes | backend/src/mnemosyne/services/session_service.py:59-67 | only the notes and update time change, and an unknown id changes nothing |
| Sessions.SetStatus | backend/src/mnemosyne/services/session_service.py:84-92 | only the status and update time change, and an unknown id changes nothing |
| Sessions.SetAudioFile | backend/src/mnemosyne/services/session_service.py:93-101 | only the audio file and update time change, and an unknown id changes nothing |
| Sessions.SetSummary | backend/src/mnemosyne/services/session_service.py:122-129 | only the summary and update time change, and an unknown id changes nothing |
| Sessions.SetStatusUnchecked | backend/src/mnemosyne/services/session_service.py:84-92 | no transition is refused: any stored session reaches any target status |
| Sessions.KnownSpeakers | backend/src/mnemosyne/services/session_service.py:114-116 | no known speaker is the unknown label |
| Sessions.KnownSpeakersHas | backend/src/mnemosyne/services/session_service.py:114-116 | a name is listed exactly when it is not the unknown label and some segment is spoken by it |
| Sessions.Participants | backend/src/mnemosyne/services/session_service.py:113-117 | no participant is listed twice |
| Sessions.ParticipantsExactly | backend/src/mnemosyne/services/session_service.py:113-117 | a name is a participant exactly when some segment is spoken by it and it is not the unknown label; participants come in order of first appearance |
| Sessions.SetTranscript | backend/src/mnemosyne/services/session_service.py:102-120 | the transcript is replaced, the participants derived from it, and the session completed; an unknown id changes nothing |
| Sessions.DeleteSession | backend/src/mnemosyne/services/session_service.py:68-82 | an unknown id is refused; otherwise the file is removed and, when one exists, the recordings directory, and nothing else changes |
| Sessions.DeleteNotIdempotent | backend/src/mnemosyne/services/session_service.py:68-82 | a second delete of the same id reports failure |
| Capture.Description | backend/src/mnemosyne/audio/capture.py:75-77 | the node description, else the node name, else "unknown" |
| Capture.ToDevice | backend/src/mnemosyne/audio/capture.py:66-81 | a device exactly when the node has an id, with its name, description, media class and monitor flag |
| Capture.AudioNodes | backend/src/mnemosyne/audio/capture.py:55-64 | every kept object is an audio source or sink node of the listing, and no more are kept than listed |
| Capture.AudioNodesAppend | backend/src/mnemosyne/audio/capture.py:55-83 | the filter distributes over concatenation, so the kept nodes stay in listing order |
| Capture.AudioNodesSingle | backend/src/mnemosyne/audio/capture.py:55-64 | one object is kept exactly when it is an audio source or sink node |
| Capture.AudioNodesExactly | backend/src/mnemosyne/audio/capture.py:55-64 | an object is kept exactly when it is in the listing and is an audio source or sink node |
| Capture.DevicesOf | backend/src/mnemosyne/audio/capture.py:66-83 | one device per node, in order, exactly when every node has an id |
| Capture.ListDevices | backend/src/mnemosyne/audio/capture.py:44-83 | a failed `pw-dump` is refused with its error output; otherwise the devices of the audio nodes |
| Capture.ListedDevicesAreAudio | backend/src/mnemosyne/audio/capture.py:55-81 | every listed device has an audio media class and is an input or an output |
| Capture.MonitorName | backend/src/mnemosyne/audio/capture.py:86-88 | the sink name followed by `.monitor`, and nothing more |
| Capture.FindDevice | backend/src/mnemosyne/audio/capture.py:109-114 | present exactly when some listed device has the id, and then the last listed device with that id, as the dictionary comprehension keeps |
| Capture.FindBefore | backend/src/mnemosyne/audio/capture.py:109 | among the first `n` devices, present exactly when one has the id, and then one with that id that no later one among them shares |
| Capture.Target | backend/src/mnemosyne/audio/capture.py:127-132 | a sink's monitor name for outputs, the numeric id for everything else |
| Capture.WavPath | backend/src/mnemosyne/audio/capture.py:116 | the output file is a `.wav` file |
| Capture.RecordCommand | backend/src/mnemosyne/audio/capture.py:119-134 | seven words: `pw-record` first, `--target` then the target, and the output file last |
| Capture.PlanProcesses | backend/src/mnemosyne/audio/capture.py:109-148 | at most one process per requested id, each writing a `.wav` file |
| Capture.KnownIds | backend/src/mnemosyne/audio/capture.py:111-114 | every id kept is one the listing holds |
| Capture.ProcessFor | backend/src/mnemosyne/audio/capture.py:116-148 | the process records the device's target into the session's file for that device |
| Capture.ProcessesFor | backend/src/mnemosyne/audio/capture.py:111-148 | one process per known id, in order |
| Capture.PlanProcessesSpec | backend/src/mnemosyne/audio/capture.py:109-148 | the plan is exactly one process per known id, in the order requested |
| Capture.SpawnFrom | backend/src/mnemosyne/audio/capture.py:111-148 | spawning from a plan position runs every process in order up to the first failed spawn, and then reports that failure with the ones already running |
| Capture.StartRecording | backend/src/mnemosyne/audio/capture.py:91-151 | succeeds exactly when the directory is made, the listing succeeds and every planned `pw-record` spawns; then the session records under the uuid's short id with the planned processes. A failed spawn reports the processes already running, the ones before it |
| Capture.PartialStartLeavesProcess | backend/src/mnemosyne/audio/capture.py:103-148 | when the second spawn fails the start raises while the first device's `pw-record` is running |
| Capture.OggPath | backend/src/mnemosyne/audio/capture.py:156 | the same path with `.wav` replaced by `.ogg` |
| Capture.ConvertToOpus | backend/src/mnemosyne/audio/capture.py:154-168 | the `.ogg` path exactly when `ffmpeg` succeeds, otherwise its error output in the message |
| Capture.AudioPaths | backend/src/mnemosyne/audio/capture.py:184 | a path is kept exactly when it is requested and its recording exists and is not empty at the start of the stop |
| Capture.Fresh | backend/src/mnemosyne/audio/capture.py:167-184 | each path not yet deleted, once, in order of its first occurrence: nothing repeated and nothing already gone |
| Capture.ConvertAll | backend/src/mnemosyne/audio/capture.py:153-168 | succeeds exactly when every conversion does, giving each `.ogg` path in order; otherwise the message of the first failing `ffmpeg` |
| Capture.ConvertFromSpec | backend/src/mnemosyne/audio/capture.py:153-189 | the stop loop, which deletes each converted `.wav` so that a later process sharing the path finds it missing, converts exactly the first occurrence of each non-empty recording |
| Capture.StopRecording | backend/src/mnemosyne/audio/capture.py:171-189 | the conversions of each distinct non-empty recording in first-occurrence order; on success the session stops recording, on failure it is unchanged |
| Capture.OggPathInjective | backend/src/mnemosyne/audio/capture.py:156 | two `.wav` paths with one `.ogg` counterpart are the same path |
| Capture.ConvertAllDistinct | backend/src/mnemosyne/audio/capture.py:153-168 | distinct `.wav` paths give distinct `.ogg` paths |
| Capture.ConvertedExactly | backend/src/mnemosyne/audio/capture.py:171-189 | a path is converted exactly when some process records to it and its recording is not empty |
| Capture.StopRecordingFiles | backend/src/mnemosyne/audio/capture.py:171-189 | when every conversion succeeds, the files returned name each non-empty recording's `.ogg` exactly once, however many processes share its path |
| Capture.RepeatedDeviceConvertedOnce | backend/src/mnemosyne/audio/capture.py:153-189 | two processes for one device share a `.wav`, which is converted once: the stop returns a single `.ogg` |
| AudioRoutes.TargetSession | backend/src/mnemosyne/api/routes/audio.py:43-49 | a requested id must exist (404 otherwise); without one a new default-named, created session is stored |
| AudioRoutes.TargetSessionKeyed | backend/src/mnemosyne/api/routes/audio.py:43-49 | the targeted session is stored under its own id and the store stays well keyed |
| AudioRoutes.Launch | backend/src/mnemosyne/api/routes/audio.py:51-57 | succeeds exactly when the capture starts; then the capture is registered for the session, replacing any entry, and the session is marked recording; a failed capture is a 500 whose already-running processes become orphans, and every registered recording keeps `.wav` outputs |
| AudioRoutes.Start | backend/src/mnemosyne/api/routes/audio.py:37-63 | no devices gives 400, an unknown session 404, a failed capture leaves the active recordings unchanged and keeps a session created for the request in the store, and every registered recording keeps `.wav` outputs |
| AudioRoutes.PartialStartOrphans | backend/src/mnemosyne/api/routes/audio.py:37-57 | a start whose second spawn fails answers 500, registers nothing and leaves the session's store unchanged, while the first process is left running unreachable |
| AudioRoutes.StartRegisters | backend/src/mnemosyne/api/routes/audio.py:37-63 | after a successful start the session has an active recording entry whose id the response reports, is marked recording, and every other entry is untouched |
| AudioRoutes.StartOverwritesActive | backend/src/mnemosyne/api/routes/audio.py:51-54 | a start for a session that already records replaces its entry, without stopping the earlier capture |
| AudioRoutes.Stop | backend/src/mnemosyne/api/routes/audio.py:66-98 | no entry gives 404, a non-recording entry 400; on success the entry is removed and the response names the session and recording, lists the files the capture stop returned (each distinct recording once) and counts them in its message; the `.wav` invariant of the registered recordings is kept |
| AudioRoutes.StopThenStopAgain | backend/src/mnemosyne/api/routes/audio.py:66-98 | a successful stop moves the session to processing and records the mixed file when there is one; a second stop gets 404 |
| AudioRoutes.Status | backend/src/mnemosyne/api/routes/audio.py:101-113 | not present without an entry; otherwise the entry's recording flag and device count |
| WhisperEngine.NewEngine | backend/src/mnemosyne/transcription/whisperx_engine.py:18-33 | unloaded; the CPU with int8 without CUDA; the requested compute type only on CUDA; a missing or empty token falls back to the environment's |
| WhisperEngine.DefaultEngine | backend/src/mnemosyne/transcription/whisperx_engine.py:18-30 | large-v2, batch 16, and float16 on CUDA or int8 on the CPU |
| WhisperEngine.Load | backend/src/mnemosyne/transcription/whisperx_engine.py:38-64 | a loaded engine is kept; otherwise the load succeeds exactly when the loader does, installing both models and keeping the configuration |
| WhisperEngine.LoadIdempotent | backend/src/mnemosyne/transcription/whisperx_engine.py:38-41 | a second load keeps the models of the first |
| WhisperEngine.Unload | backend/src/mnemosyne/transcription/whisperx_engine.py:66-72 | both models dropped, configuration kept |
| WhisperEngine.UnloadThenLoad | backend/src/mnemosyne/transcription/whisperx_engine.py:38-72 | after an unload the next load installs what its loader produces |
| WhisperEngine.ConvertWord | backend/src/mnemosyne/transcription/whisperx_engine.py:136-141 | the word text is carried over; start, end and score are carried over when present and 0.0 when missing |
| WhisperEngine.ConvertWords | backend/src/mnemosyne/transcription/whisperx_engine.py:133-144 | no more words than entries |
| WhisperEngine.ConvertWordsAppend | backend/src/mnemosyne/transcription/whisperx_engine.py:133-144 | the conversion distributes over concatenation |
| WhisperEngine.ConvertWordsSingle | backend/src/mnemosyne/transcription/whisperx_engine.py:135-143 | a single entry is kept exactly when it has a word |
| WhisperEngine.ConvertWordsCount | backend/src/mnemosyne/transcription/whisperx_engine.py:133-144 | one word per entry carrying one, so every entry is kept when all carry words |
| WhisperEngine.ConvertSegment | backend/src/mnemosyne/transcription/whisperx_engine.py:132-152 | the text stripped, the start, end and speaker carried over when present, and the word list converted exactly when the segment has one; `UNKNOWN` speaker, zero times and empty text for missing keys |
| WhisperEngine.ConvertSegments | backend/src/mnemosyne/transcription/whisperx_engine.py:132-152 | one record per raw segment, in order |
| WhisperEngine.ToRawWords | backend/src/mnemosyne/transcription/whisperx_engine.py:133-144 | every word as a dictionary with all keys present |
| WhisperEngine.ConvertToRawWords | backend/src/mnemosyne/transcription/whisperx_engine.py:133-144 | converting complete word dictionaries gives the words back |
| WhisperEngine.ConvertToRaw | backend/src/mnemosyne/transcription/whisperx_engine.py:132-152 | converting a record's complete dictionary gives the record back when its text is already stripped |
| WhisperEngine.ConvertStable | backend/src/mnemosyne/transcription/whisperx_engine.py:132-152 | converting a converted record's dictionary changes nothing |
| WhisperEngine.Transcribe | backend/src/mnemosyne/transcription/whisperx_engine.py:74-152 | loads first when needed; succeeds exactly when the load and the pipeline do, with the converted segments of the pipeline's output; a failed load or pipeline gives its error |
| WhisperEngine.TranscribeRoundTrip | backend/src/mnemosyne/transcription/whisperx_engine.py:74-152 | a pipeline that returns the raw form of stripped records makes `transcribe` return exactly those records |
| WhisperEngine.ConvertToRawAll | backend/src/mnemosyne/transcription/whisperx_engine.py:132-152 | converting the raw form of stripped records gives them back |
| EngineService.Build | backend/src/mnemosyne/services/model_service.py:27-32 | an unloaded engine with the configured size and batch, compute type and token |
| EngineService.GetEngine | backend/src/mnemosyne/services/model_service.py:22-33 | the held engine, or a newly built, unloaded one that is kept |
| EngineService.GetEngineStable | backend/src/mnemosyne/services/model_service.py:22-33 | every access after the first returns the same engine |
| EngineService.EnsureLoaded | backend/src/mnemosyne/services/model_service.py:35-40 | on success a loaded engine that the service holds; a held loaded engine is returned as is; a failure is the loader's |
| EngineService.EnsureLoadedTwice | backend/src/mnemosyne/services/model_service.py:35-40 | a second call neither reloads nor rebuilds |
| EngineService.UnloadService | backend/src/mnemosyne/services/model_service.py:42-46 | the engine is forgotten |
| EngineService.UnloadThenRebuild | backend/src/mnemosyne/services/model_service.py:22-46 | after an unload the next access builds a fresh, unloaded engine from the configuration |
| Gateway.Connect | backend/src/mnemosyne/api/websocket.py:22-24 | the socket joins the end of the list |
| Gateway.Disconnect | backend/src/mnemosyne/api/websocket.py:26-27 | fails exactly when the socket is absent; otherwise one occurrence is removed |
| Gateway.FirstIndexOf | backend/src/mnemosyne/api/websocket.py:27 | the first index holding the socket |
| Gateway.ConnectThenDisconnect | backend/src/mnemosyne/api/websocket.py:22-27 | connecting then disconnecting a new socket restores the list |
| Gateway.Broadcast | backend/src/mnemosyne/api/websocket.py:29-36 | one attempt per connected socket, in order, each delivered exactly when that socket's send succeeds |
| Gateway.BroadcastReaches | backend/src/mnemosyne/api/websocket.py:29-36 | a socket is reached exactly when it is connected and its own send succeeds |
| Gateway.SegmentEvents | backend/src/mnemosyne/api/websocket.py:63-70 | one transcription event per segment |
| Gateway.SegmentsOfAppend | backend/src/mnemosyne/api/websocket.py:63-70 | the segments of a trace distribute over concatenation |
| Gateway.SegmentsOfSegmentEvents | backend/src/mnemosyne/api/websocket.py:63-70 | the segment events carry exactly the segments, in order |
| Gateway.BroadcastTranscription | backend/src/mnemosyne/api/websocket.py:42-91 | the status, segment and completion or error events in order; the store changes only for a successful run with segments and a session |
| Gateway.TraceCarriesSegments | backend/src/mnemosyne/api/websocket.py:62-91 | clients see every segment produced, in order, even when the run then fails; on success these are exactly the returned list |
| Gateway.TranscriptPersisted | backend/src/mnemosyne/api/websocket.py:72-74 | a successful run with segments for a known session stores them as its transcript and completes it |
| Gateway.Route | backend/src/mnemosyne/api/websocket.py:98-109 | a transcription starts exactly for a `transcribe` message with an audio path; a `ping` is answered with a pong to its sender |
| Gateway.ServeLoop | backend/src/mnemosyne/api/websocket.py:97-111 | the decoded messages are routed in order up to the first disconnect or undecodable text, which ends the loop as a disconnect or as an escaping error |
| Gateway.Serve | backend/src/mnemosyne/api/websocket.py:94-112 | the socket is listed while the loop runs and removed only on a disconnect; after the decoding error it stays listed |
| Gateway.MalformedLeavesSocket | backend/src/mnemosyne/api/websocket.py:94-112 | a client whose first text is not JSON leaves its socket listed, and later broadcasts still try it |
| Prompts.GetSystemPrompt | backend/src/mnemosyne/summarization/prompts.py:39-43 | the compact prompt exactly for fewer than ten segments, the full prompt otherwise |
| Prompts.PromptLine | backend/src/mnemosyne/summarization/prompts.py:30-35 | the line reads back as the `MM:SS` code of the start, the speaker defaulting to `UNKNOWN` and the stripped text, when the speaker holds no colon |
| Prompts.PromptLines | backend/src/mnemosyne/summarization/prompts.py:28-35 | one line per segment, in order |
| Prompts.FormatTranscript | backend/src/mnemosyne/summarization/prompts.py:26-36 | empty exactly when there are no segments |
| Prompts.JoinNonEmpty | backend/src/mnemosyne/summarization/prompts.py:36 | joining lines whose first is non-empty gives non-empty text |
| Prompts.FormatTranscriptLines | backend/src/mnemosyne/summarization/prompts.py:26-36 | splitting the prompt text on newlines gives one line per segment, in order, when speakers and texts are newline-free |
| Prompts.FormatTranscriptReadsBack | backend/src/mnemosyne/summarization/prompts.py:26-36 | line `i` of the prompt text reads back as segment `i`'s time code, speaker and stripped text |
| Prompts.LineFree | backend/src/mnemosyne/summarization/prompts.py:31-35 | a prompt line holds no newline when its speaker and text hold none |
| Prompts.EmptyDictLine | backend/src/mnemosyne/summarization/prompts.py:30-35 | a dictionary without keys prints as an `UNKNOWN` line at 00:00 with empty text |
| Prompts.TimecodeZero | backend/src/mnemosyne/summarization/prompts.py:33-35 | time 0 prints as 00:00 |
| Prompts.EmptyDictFields | backend/src/mnemosyne/summarization/prompts.py:30-32 | the defaults of a dictionary without keys: speaker `UNKNOWN`, start 0, empty text |
| Providers.OllamaBaseUrl | backend/src/mnemosyne/summarization/ollama.py:17-18 | a prefix of the URL with no trailing slash, having dropped only slashes |
| Providers.OllamaBaseUrlIdempotent | backend/src/mnemosyne/summarization/ollama.py:17-18 | normalising twice changes nothing more |
| Providers.EmbeddingKeywordRedundant | backend/src/mnemosyne/summarization/ollama.py:21-41 | the keyword "embedding" adds nothing to the filter beyond "embed" |
| Providers.ChatNames | backend/src/mnemosyne/summarization/ollama.py:34-42 | no more names than entries, and no kept name contains "embed" in lower case |
| Providers.ChatNamesAppend | backend/src/mnemosyne/summarization/ollama.py:34-42 | the filter distributes over concatenation |
| Providers.ChatNamesSingle | backend/src/mnemosyne/summarization/ollama.py:34-42 | a single entry is kept exactly when it is not an embedding model |
| Providers.OllamaListModels | backend/src/mnemosyne/summarization/ollama.py:26-46 | any failure, including a nameless entry, gives the empty list; otherwise the chat names |
| Providers.OpenAIKey | backend/src/mnemosyne/summarization/openai_provider.py:16-17 | the given key when non-empty, otherwise the environment's, else empty |
| Providers.ChatIds | backend/src/mnemosyne/summarization/openai_provider.py:33-37 | every kept id is a chat id, and each chat id is kept exactly as often as the reply names it (a multiset count per id) |
| Providers.ChatIdsComplete | backend/src/mnemosyne/summarization/openai_provider.py:33-37 | every chat id of the reply is kept |
| Providers.OpenAIListModels | backend/src/mnemosyne/summarization/openai_provider.py:20-41 | nothing without a key, on failure, or when an entry lacks an `id`; otherwise sorted, and a permutation of the reply's chat ids |
| Providers.OpenAIListModelsExactly | backend/src/mnemosyne/summarization/openai_provider.py:20-41 | with a key and a well-formed reply, an id is listed exactly when it is a chat id of the reply, and as often as the reply names it |
| Providers.FirstChoice | backend/src/mnemosyne/summarization/openai_provider.py:64-67 | the first choice's content, empty when there is no choice or no content |
| Providers.UserMessage | backend/src/mnemosyne/summarization/ollama.py:62 | the user message ends with the transcript |
| Summarization.Registry | backend/src/mnemosyne/services/summarization_service.py:22-37 | Ollama and vLLM first, then OpenAI and Anthropic exactly when their keys are set, without repeats |
| Summarization.ChooseModel | backend/src/mnemosyne/services/summarization_service.py:70-75 | the requested model; without one, the first listed, failing exactly when none is listed |
| Summarization.Summarize | backend/src/mnemosyne/services/summarization_service.py:47-87 | unknown provider and no models are refused; a registered provider with a chosen model gives the call's summary with that provider and model, or the call's error; on success the provider was called with the formatted transcript and the system prompt for its size |
| Summarization.SummarizeSelection | backend/src/mnemosyne/services/summarization_service.py:70-81 | a short transcript is summarised with the compact prompt; the model reported is the requested or first listed one |
| Summarization.ListAllModels | backend/src/mnemosyne/services/summarization_service.py:39-45 | one entry per registered provider, in registry order |
| Summarization.ListAllModelsLanOnly | backend/src/mnemosyne/services/summarization_service.py:22-45 | without cloud keys only Ollama and vLLM answer the listing |
| MeetingNote.Quoted | backend/src/mnemosyne/export/templates.py:19 | each participant double-quoted |
| MeetingNote.Frontmatter | backend/src/mnemosyne/export/templates.py:19-27 | the block opens with the `---` fence and the quoted title and closes with the tags line and the fence; split on newlines it gives the fence, title, date, type, source, the participants as double-quoted names joined by `", "` in brackets, the tags and the fence |
| MeetingNote.FrontmatterEnds | backend/src/mnemosyne/export/templates.py:20-27 | the joined frontmatter lines open with the fence and title and close with the tags and fence |
| MeetingNote.FrontmatterSplits | backend/src/mnemosyne/export/templates.py:19-27 | with newline-free fields the frontmatter splits back into its lines |
| MeetingNote.Sections | backend/src/mnemosyne/export/templates.py:31-62 | the sections come in summary, participants, notes, transcript order, each with its content unchanged |
| MeetingNote.SectionsPresent | backend/src/mnemosyne/export/templates.py:31-62 | each section is present exactly when its content is non-empty |
| MeetingNote.TranscriptLine | backend/src/mnemosyne/export/templates.py:56-62 | the line reads back as `**[`, the `MM:SS` code of the start, the speaker defaulting to `UNKNOWN`, `:** ` and the stripped text with a newline, when the speaker holds no colon |
| MeetingNote.LabelledLine | backend/src/mnemosyne/export/templates.py:62 | a line `**[code] speaker:** text` and a newline reads back as the code, the speaker and the text with its newline when the code holds no `]` and the speaker no colon |
| MeetingNote.TranscriptLines | backend/src/mnemosyne/export/templates.py:56-62 | one line per segment, in order |
| MeetingNote.Bullets | backend/src/mnemosyne/export/templates.py:43-44 | one `- ` bullet per participant, in order |
| MeetingNote.SectionLines | backend/src/mnemosyne/export/templates.py:31-62 | a section contributes its own heading first |
| MeetingNote.Blocks | backend/src/mnemosyne/export/templates.py:31-62 | one block of lines per section, in order, each the lines that section appends |
| MeetingNote.AllSectionLines | backend/src/mnemosyne/export/templates.py:29-62 | no lines exactly when there are no sections |
| MeetingNote.RenderMeetingNote | backend/src/mnemosyne/export/templates.py:6-64 | the note is the frontmatter, a newline, the title heading, then each present section's newline and lines joined by newlines, in summary, participants, notes and transcript order |
| MeetingNote.JoinHeadingSections | backend/src/mnemosyne/export/templates.py:29-64 | joining the heading with the sections' lines gives the heading followed by each section's text |
| MeetingNote.JoinSectionLines | backend/src/mnemosyne/export/templates.py:31-64 | the joined lines of several sections are the text of each section in turn |
| Text.JoinFlatten | backend/src/mnemosyne/export/templates.py:29-64 | joining the lines of several non-empty blocks at once equals joining each block and putting the separator before every block |
| MeetingNote.BareNote | backend/src/mnemosyne/export/templates.py:29-64 | a note with no participants, segments, summary or notes is the frontmatter and the title heading |
| MeetingNote.ParticipantBullets | backend/src/mnemosyne/export/templates.py:41-45 | the participants section is its heading, one bullet per participant in order, and a closing blank line |
| Obsidian.RemoveForbidden | backend/src/mnemosyne/export/obsidian.py:22 | no longer than the name and free of forbidden characters |
| Obsidian.RemoveForbiddenAppend | backend/src/mnemosyne/export/obsidian.py:22 | the substitution distributes over concatenation, so kept characters keep their order |
| Obsidian.RemoveForbiddenSingle | backend/src/mnemosyne/export/obsidian.py:22 | one character is deleted exactly when it is forbidden, and kept otherwise |
| Obsidian.RemoveForbiddenClean | backend/src/mnemosyne/export/obsidian.py:22 | a clean name loses nothing to the substitution |
| Obsidian.StripKeepsClean | backend/src/mnemosyne/export/obsidian.py:23 | trimming cannot bring a forbidden character in |
| Obsidian.Sanitize | backend/src/mnemosyne/export/obsidian.py:20-24 | the name without forbidden characters, stripped of dots and spaces, or `untitled` when that is empty; so the result is non-empty, clean and has no trimmed ends |
| Obsidian.SanitizeIdempotent | backend/src/mnemosyne/export/obsidian.py:20-24 | sanitising a sanitised name changes nothing |
| Obsidian.SanitizeFallback | backend/src/mnemosyne/export/obsidian.py:24 | a name of only forbidden and trimmed characters falls back to `untitled` |
| Obsidian.AllTrimmedAfterRemoval | backend/src/mnemosyne/export/obsidian.py:22-23 | for a name of only forbidden and trimmed characters, what the substitution leaves is all trimmed characters |
| Obsidian.ExportPath | backend/src/mnemosyne/export/obsidian.py:35-42 | the path begins `{vault}/{subfolder}/{date}-` and ends with the sanitised name and `.md` |
| Obsidian.Export | backend/src/mnemosyne/export/obsidian.py:26-56 | refused exactly when the vault is missing, with its message; otherwise the rendered note of the session's name, participants, dumped transcript, summary and notes goes to the export path |
| Obsidian.DumpAll | backend/src/mnemosyne/export/obsidian.py:49 | one dictionary per stored segment, in order |
| Obsidian.ExportFileNameIsLocal | backend/src/mnemosyne/export/obsidian.py:39-42 | the file name holds no path separator of its own |

## Left out

- Python's float arithmetic. Times and talk time are exact reals, and `int()` and `//` on them are written out as truncation and floor.
- Segments.SortByStart: stability is not stated. Python's sort keeps equal starts in input order; no contract here says so.
- Transcriber.MostCommon: Python breaks ties by the iteration order of a set. The model takes the earliest element in list order.
- Transcriber.SegmentFor: all segments of a run share one `now`. The source reads the clock once per segment.
- The machine-learning models are inputs: the transcription result, the diarization turns, the punctuation labeller, difflib's similarity ratio, the sentence tokenizer's break test, the WhisperX pipeline and the model loaders.
- Helpers.WordsSpeakerMapping: requires that no word's anchor passes its own end. This excludes the inputs on which the source loops forever (see Findings), and also some on which it ends: a word whose anchor passes its end while a turn before the last still covers it. `Helpers.WordsSpeakerMappingBounded` covers every input.
- Process termination (`terminate`, `wait`, `kill`) in the capture stop, and the mixing of several recordings into one file. Neither affects the data model.
- JSON encoding and decoding. Records are datatypes. A malformed session file is skipped by `list_sessions` and makes `get_session` raise (`Sessions.GetSessionFile`); the setters and the routes work on the store of well-formed records only.
- LegacySession.ToApiView: the view with `include_data` is not modelled. That view re-reads the transcript file.
- `save_transcript` and `list_saved_sessions` of the legacy session module. They only write and list files.
- Creation and update times are opaque values. Their ISO text and `strftime` formatting are not modelled.
- Capture.StopRecording: requires that every planned output path ends in `.wav`. Every path the plan makes does, and `AudioRoutes.Valid` keeps this for every registered recording.
- EngineService.EnsureLoaded: a failed load returns no service, while the source keeps the engine it built in the singleton. The caller keeps its earlier service, and the next call builds the same engine from the same settings and machine.
- Obsidian.ExportPath: treats the subfolder as relative. Python's `/` would let an absolute subfolder replace the vault path.
- The CUDA cache emptying and garbage collection on unload.
- Helpers.SentencesFromCount: counts sentences only without sentence breaks. The tokenizer's breaks are an uninterpreted input.
- AudioRoutes.StartOverwritesActive: stated for a non-empty requested id only.
- The HTTP exchanges with Ollama, vLLM, OpenAI and Anthropic are inputs. Each is the decoded reply or the failure.
- The vLLM and Anthropic providers. Each is a registry entry whose listing and summarising are inputs.
- Ollama's chat reply extraction. It is a dictionary lookup with an empty default.
- File writing (`write_text`). It is a store update or is left out. The recording directory's creation is an outcome the capture start receives.
- LegacySummarizer.PromptRoundTrip: stated for any introduction and closing lines that meet `Frames`. No lemma checks that the fixed introduction and instruction texts are themselves newline-free.
- LegacySummarizer.SimpleSummary: states the frame of the summary: the overview heading first and the fixed closing sections last. It does not state the speaker count or the topic lines between them, which `Unique`, `Samples` and `TopicIsPrefix` state separately.
- `str.lower` is modelled for ASCII letters only.
- Logging, and the `status` message broadcasts' wording beyond their order.

## Findings

| source | as written | input that shows it | evidently intended | confidence | as-written member | corrected member |
|---|---|---|---|---|---|---|
| backend/src/services/model_service.py:46 | `get_summarizer` constructs the summariser with a `model` keyword its constructor does not accept, so the call raises | a fresh service and any provider and model | build the summariser for the provider, then use the requested model | not executed | LegacyModels.FreshServiceHasNoSummarizerAsWritten | LegacyModels.GetSummarizer |
| backend/src/audio/helpers.py:76-81 | on the last turn the loop sets the end to the word's own end and repeats while the anchor passes it, so a word whose anchor passes its end never leaves the loop | one turn ending at 1 s and a word from 2 s to 1 s with the start anchor | the last turn takes every remaining word and the walk stops there | not executed | Helpers.ReversedWordSpins | Helpers.WordsSpeakerMappingBounded |
| backend/src/api/session.py:191 | `generate_summary` passes the model to `summarize_transcript`, which takes only the transcript, after fetching the summariser through the getter above | a successful transcription with one segment | summarise the transcript with the held summariser | not executed | LegacySession.ProcessAudioFileAsWrittenFails | LegacySession.ProcessAudioFile |

## Behaviour as coded

- Starting a capture is not all-or-nothing. When the capture fails after a session was created for the request, that session stays in the store; the fourth ensures of `AudioRoutes.Start` states this.
- When one `pw-record` spawn fails after others have started, the start answers 500 and the processes already running stay running with nothing left to stop them. `Capture.PartialStartLeavesProcess` and `AudioRoutes.PartialStartOrphans` state this.
- A WebSocket client that sends text which is not JSON ends the endpoint with an error other than a disconnect, so its socket stays in the connection list and later broadcasts still try it. `Gateway.MalformedLeavesSocket` states this.
- A second stop of the same session is refused with 404 rather than being a no-op. `AudioRoutes.StopThenStopAgain` states this.
- Any session status may follow any other. `Sessions.SetStatusUnchecked` states this.
- Requesting one device twice starts two `pw-record` processes writing the same `.wav`. At stop, the first conversion deletes that file, so the second process finds nothing and the stop returns a single `.ogg`. `Capture.RepeatedDeviceConvertedOnce` and `Capture.StopRecordingFiles` state this.
