# YouTube Shorts automation: a verified model of the pipeline's rules

The repository makes YouTube Shorts in four stages:

1. A text service (Cohere) writes a short story for a genre, or a continuation of a saved story.
2. A speech service (ElevenLabs) reads the story aloud.
3. A background clip is cut from a local video, or a generated one is used when that fails.
4. The clip is fitted to the narration and captions are burned in.

This Dafny project models the deterministic rules between those services:

- the text cleaning of stories, speech input and captions;
- caption segmentation and timing;
- the credential store, and the rotate-and-retry rule both generators share;
- the file names;
- the background segment and crop arithmetic, the fallback chain and the cleanup selection;
- the fitting of the background to the audio;
- the pipeline's stage order and early stop, and the batch loop.

Everything the services, the media library, the clock, the random generator and the file system produce becomes a parameter. Examples are the generated text, an HTTP status, a clip's length, a time stamp, a random draw, a directory listing, and whether a write or a text render raises. The model then states what the code does with those values.

Modules, one per source file, plus three supporting ones:

| file | module | models |
|---|---|---|
| `outcomes.dfy` | `Outcomes` | `Option`, `Result`, and `Outcome` (a retry that answered, or is still retrying when the supplied passes run out) |
| `pystrings.dfy` | `PyStrings` | the Python string operations the code uses: `isspace`, `strip`, `split()`, `split('\n')`, `join`, `in`, `startswith`, `lower`, `os.path.join`, `os.path.splitext` (as on POSIX), slicing with a negative stop |
| `settings.dfy` | `Settings` | the constants of `config.py` |
| `keystore.dfy` | `KeyStore` | `api_config.py`: class `ApiConfig`, key rotation and the shared retry rule `Retry` |
| `captions.dfy` | `Captions` | `subtitle_assemblyai.py`: caption text cleaning, segmentation, timing, burning |
| `stories.dfy` | `Stories` | `story_generator.py`: class `StoryGenerator`, prompts, titles, `clean_story_text`, script lookup |
| `narration.dfy` | `Narration` | `voice_generator.py`: class `VoiceGenerator` |
| `backgrounds.dfy` | `Backgrounds` | `background_video.py` |
| `editing.dfy` | `Editing` | `video_editor.py` |
| `orchestrator.dfy` | `Orchestrator` | `main.py`: key check, `generate_video`, `generate_batch` |

Each form follows the source. Some code changes state step by step: the credential store, the two generators' client and key fields, and the append loops. That code is written as classes and methods with loops. Each such method is proved equal to a specification function, and the properties are proved about that function. Code that only computes a value is written as functions and lemmas. Examples are the title, the lookups, the segment and crop arithmetic and the stage chain.

The retries recurse with no bound. A run therefore takes the outcomes of its successive passes as a finite sequence, and it ends `StillRetrying` when every supplied pass asked for another retry. No termination is claimed.

### Where the model follows the code against what the names and comments suggest

- The background fitted to the audio is looped `int(audio / background) + 1` times, not the ceiling. Equal lengths give two loops (video_editor.py:34).
- `main.py` asks for the background at `MAX_DURATION` seconds, not at the narration's length (main.py:83-86).
- A story whose lines are all metadata cleans to `""`. It is saved and returned like any other story; no placeholder replaces it (story_generator.py:221-225).
- Neither generator bounds its retries (story_generator.py:93, voice_generator.py:75). Blank generated text returns `None` without rotating the keys (story_generator.py:59-61).
- The caption segmenter's comment promises 5 to 8 segments, but the code makes between 5 and 9. Nine segments come from 9 words and from every count of 80 words or more that 8 does not divide, which covers a story of typical length. So the re-split for fewer than three segments never runs (subtitle_assemblyai.py:21-37).
- Under five words the step is 0 and `range` raises (subtitle_assemblyai.py:23, 26).
- The caption line filter keeps lines longer than five characters. The comment says "at least 5" (subtitle_assemblyai.py:150).

## Model

| member | source | states |
|---|---|---|
| `PyStrings.Strip` | subtitle_assemblyai.py:137 | the kept part, taken from offset `StripOffset`, fits inside the text; it neither starts nor ends with white space; and everything removed before and after it is white space |
| `PyStrings.StripIsSlice` | subtitle_assemblyai.py:137 | `strip()` is exactly the slice of the text from `StripOffset` of length `len(strip())` |
| `PyStrings.StripIdempotent` | story_generator.py:210 | stripping twice is stripping once |
| `PyStrings.JoinSplitOn` | story_generator.py:206 | `split` with a one-character separator followed by `join` with it gives the text back |
| `PyStrings.WordsOfJoin` | story_generator.py:219 | splitting words joined by single blanks gives the words back |
| `PyStrings.CollapseIsTidy` | story_generator.py:219 | after `' '.join(s.split())` every white-space character is a single blank between two non-blank characters |
| `PyStrings.CollapseIdempotent` | story_generator.py:219 | collapsing white space twice is collapsing it once |
| `PyStrings.BeforeStopsAtFirst` | subtitle_assemblyai.py:128-130 | `s.split(p)[0]` ends at an occurrence of `p`, and no occurrence starts earlier |
| `PyStrings.SplitExt` | subtitle_assemblyai.py:165 | base and extension concatenate to the path; a non-empty extension starts with '.' and lies in the last component |
| `PyStrings.SliceTo` | background_video.py:22 | `s[:stop]` is a prefix of `s` of length `stop`, or `len(s) + stop` for a negative stop, clamped to the sequence |
| `Captions.CutAt` | subtitle_assemblyai.py:126-130 | one round of the marker loop: the marker no longer occurs; an absent marker leaves the text alone; a present one keeps the stripped text before its first occurrence |
| `Captions.CutMarkersRemovesAll` | subtitle_assemblyai.py:124-130 | after the marker loop none of the markers occurs in the text |
| `Captions.CutKeepsAbsence` | subtitle_assemblyai.py:126-130 | a cut never brings in text that was absent |
| `Captions.CutEachMarker` | subtitle_assemblyai.py:124-130 | the marker loop computes `CutMarkers` of the text and the markers |
| `Captions.KeepLines` | subtitle_assemblyai.py:133-151 | the line loop keeps the stripped lines that pass the keyword, prefix and length tests, in order |
| `Captions.CleanTextForSubtitles` | subtitle_assemblyai.py:94-160 | the method computes `CleanedForSubtitles` |
| `Captions.CleanedShape` | subtitle_assemblyai.py:94-160 | empty input gives the placeholder. Any result is either the placeholder or the kept lines joined by single blanks, at least ten characters long, where each kept line is stripped, longer than five characters and free of the instruction keywords and prefixes |
| `Captions.FinishShape` | subtitle_assemblyai.py:153-160 | for non-empty stripped lines, the result is the placeholder exactly when the space-joined lines are shorter than ten characters, and otherwise is those joined lines; either way it has at least ten characters |
| `Captions.CleanedHasNoNewline` | subtitle_assemblyai.py:133-160 | the cleaned caption text holds no newline |
| `Captions.CleanedHasWords` | subtitle_assemblyai.py:17-19 | the cleaned text always has a word, so the fallback word list is never used |
| `Captions.SegmentCount` | subtitle_assemblyai.py:22 | `min(8, max(5, n // 10))` lies in [5, 8] |
| `Captions.Chunks` | subtitle_assemblyai.py:26-27 | the slices `xs[i:i+w]` concatenate back to `xs`; none is empty; all but the last hold exactly `w` items |
| `Captions.GroupWords` | subtitle_assemblyai.py:26-29 | the split loop computes `Grouped` of the words and the step |
| `Captions.SplitIntoSegments` | subtitle_assemblyai.py:21-37 | the method computes `Segments`: the first split, the re-split when it gives fewer than three, or the error for a zero step |
| `Captions.GroupedIsJoinedChunks` | subtitle_assemblyai.py:26-29 | on a word list every chunk becomes one segment: the blank test never drops one |
| `Captions.WordsOfJoinEach` | subtitle_assemblyai.py:27 | each segment's words are exactly its chunk of the word list |
| `Captions.StepBounds` | subtitle_assemblyai.py:22-23 | from five words the step is at least 1, and `count * step <= n <= 9 * step` |
| `Captions.ChunkCountBounds` | subtitle_assemblyai.py:22-26 | the number of chunks lies between 5 and 9 |
| `Captions.SegmentsOfEnoughWords` | subtitle_assemblyai.py:21-37 | `Segments`: with at least five words the segments are the first split's chunks, joined, and there are 5 to 9 of them, so the re-split never runs |
| `Captions.SegmentWords` | subtitle_assemblyai.py:21-29 | with at least five words, segment `i` splits back into exactly chunk `i` of the words taken `Step(n)` = `n // min(8, max(5, n // 10))` at a time |
| `Captions.NineWordsNineSegments` | subtitle_assemblyai.py:21-29 | nine words give nine segments of exactly one word each |
| `Captions.NineSegmentsFromEighty` | subtitle_assemblyai.py:21-29 | from 80 words on, there are exactly nine segments when 8 does not divide the word count, and exactly eight when it does |
| `Captions.EightyNineWordsNineSegments` | subtitle_assemblyai.py:21-29 | 89 words give nine segments: the first eight of exactly eleven words, the ninth of exactly one |
| `Captions.FewWordsRaise` | subtitle_assemblyai.py:23-26 | under five words the step is 0 and the split raises |
| `Captions.SlotsTile` | subtitle_assemblyai.py:42-50 | the first slot starts at 0; each slot starts where the one before ends; the last ends at the video's length |
| `Captions.Shortened` | subtitle_assemblyai.py:73 | the retry text is a prefix of the segment of at most 30 characters: the whole segment when it has at most 30, else exactly its first 30 |
| `Captions.ClipsFor` | subtitle_assemblyai.py:45-89 | at most one caption per segment, each lasting one slot; where each caption starts and what it shows, under any failures, is `Captions.SurvivingCaptions` |
| `Captions.CaptionClips` | subtitle_assemblyai.py:42-89 | no segments raise (division by zero); otherwise the loop computes `ClipsFor` with slot `duration / len(segments)` |
| `Captions.AllClipsDrawn` | subtitle_assemblyai.py:45-66 | when every first render succeeds, caption `i` shows segment `i` from `i * slot` for one slot |
| `Captions.NoClipDrawn` | subtitle_assemblyai.py:69-89 | when every render and every retry fails, no caption survives |
| `Captions.DrawnIndicesIncrease` | subtitle_assemblyai.py:45-89 | the segments that get a caption are listed in strictly increasing order |
| `Captions.DrawnIndicesExact` | subtitle_assemblyai.py:45-89 | a segment is listed exactly when it is not blank and its first or second drawing succeeds |
| `Captions.ClipsForDrawn` | subtitle_assemblyai.py:45-89 | caption `j` is exactly the caption of the `j`-th listed segment |
| `Captions.SurvivingCaptions` | subtitle_assemblyai.py:45-89 | whichever drawings fail, each surviving caption `j` belongs to a distinct non-blank segment `i`, in segment order. It starts at `i * segment_duration`, so a dropped segment leaves a gap. It shows segment `i` when the first drawing succeeded, else exactly `Shortened(segment)` after a successful second drawing. Exactly the non-blank segments with a successful drawing get captions |
| `Captions.RetryIsShortened` | subtitle_assemblyai.py:69-86 | a caption made at the second try holds at most the first 30 characters of its segment |
| `Captions.CreateSimpleSubtitles` | subtitle_assemblyai.py:9-92 | the method computes `SimpleSubtitles` |
| `Captions.CaptionsOfWordsOutcome` | subtitle_assemblyai.py:21-92 | the captions fail exactly when there are fewer than five words. Otherwise there are 5 to 9 segments, and with every render succeeding they show the segments in order, in equal slots that tile the video |
| `Captions.SimpleSubtitlesOutcome` | subtitle_assemblyai.py:9-92 | `SimpleSubtitles` raises exactly when the cleaned text has fewer than five words |
| `Captions.DefaultOutputPath` | subtitle_assemblyai.py:164-166 | the default output is the path with `_subtitled` inserted before its extension |
| `Captions.BurnSubtitles` | subtitle_assemblyai.py:162-236 | the method computes `Burned` |
| `Captions.CompositedOutcome` | subtitle_assemblyai.py:190-230 | `Composited` returns the output path with at least one caption shown, or else the input video |
| `Captions.BurnedOutcome` | subtitle_assemblyai.py:162-236 | `Burned` returns the output path with at least one caption, or the input video. The input video comes back when the length cannot be read, when writing fails, and when the text has fewer than five words. When no caption can be drawn, the placeholder covers the whole video |
| `KeyStore.RotateLeft` | story_generator.py:91 | `append(pop(0))` moves the first key to the back and keeps the rest in order |
| `KeyStore.RotateLeftPermutes` | story_generator.py:91 | rotation keeps the length and the multiset of keys |
| `KeyStore.RotateTimesShape` | voice_generator.py:73 | after `n <= len` rotations the first `n` keys have moved, in order, to the back |
| `KeyStore.RotateTimesPermutes` | voice_generator.py:73 | any number of rotations keeps the multiset of keys |
| `KeyStore.RotationCycles` | story_generator.py:88-93 | during `len` consecutive failures the `j`-th key tried is `keys[j]`, and afterwards the order is restored |
| `KeyStore.Retry` | story_generator.py:88-95 | the requests sent are at most the passes supplied; without a client nothing is sent and nothing answered |
| `KeyStore.RetryAgain` | voice_generator.py:70-75 | a pass that rotates with more than one key runs the call again on the rotated list with the rebuilt client |
| `KeyStore.ContinuesAfterRotate` | voice_generator.py:70-75 | after a rotating pass, the rest of the call is the call on the rotated list and the remaining passes |
| `KeyStore.RetryRotates` | story_generator.py:91 | the list a call leaves behind is the start list rotated some number of times no larger than the passes, and is a permutation of it; with two keys or more it is rotated exactly once for each request that was not answered by a live client (`RotateTimes(keys, RotationsDone(r))`) |
| `KeyStore.RetryAnsweredSent` | story_generator.py:88-95 | with two keys or more, a run answered by a live client has sent at least one request |
| `KeyStore.RetryRotationCount` | story_generator.py:88-95 | with two keys or more, the keys left behind are the start keys rotated `RotationsDone(r)` times: one per request, less the answered last one |
| `KeyStore.RetryTrace` | story_generator.py:88-95 | request `j` carries pass `j`'s payload; every request but the last came from a rotating pass; an exhausted call has used every pass; an answer is the last pass's |
| `KeyStore.RetryCycles` | story_generator.py:88-93 | while every pass rotates, request `j` uses the key at the front after `j` rotations, and the call is still retrying at the end |
| `KeyStore.RetryTriesEveryKey` | voice_generator.py:70-75 | in a run of failures every key is tried once, in list order, before any is tried again |
| `KeyStore.PreferredKey` | api_config.py:46-52 | `ApiConfig.PreferredAiKey` gives the first Cohere key when Cohere is preferred and one is stored; else the first ElevenLabs key whatever the preference; else none |
| `KeyStore.ElevenLabsOnlyStillYieldsKey` | api_config.py:48-51 | with no Cohere key the preferred key is the first ElevenLabs key |
| `KeyStore.Switched` | api_config.py:111 | "cohere" maps to "elevenlabs"; everything else maps to "cohere" |
| `KeyStore.SwitchTwice` | api_config.py:109-113 | switching twice is the identity on the two providers |
| `KeyStore.ApiConfig.constructor` | api_config.py:14-18 | a fresh store has no keys and prefers "cohere" |
| `KeyStore.ApiConfig.LoadApiKeys` | api_config.py:21-31 | a readable key file replaces both lists and the provider, with defaults for missing entries; a missing or unreadable file changes nothing |
| `KeyStore.ApiConfig.AddCohereKey` | api_config.py:54-61 | the key is appended exactly when absent; the other list and the provider are unchanged; duplicate-freedom is preserved |
| `KeyStore.ApiConfig.AddElevenLabsKey` | api_config.py:63-70 | the ElevenLabs counterpart of `AddCohereKey` |
| `KeyStore.ApiConfig.RemoveApiKey` | api_config.py:93-107 | removes exactly element `index` of the named list when `0 <= index < len`; any other provider or index changes nothing |
| `KeyStore.ApiConfig.SwitchAiProvider` | api_config.py:109-113 | the provider becomes `Switched` of the old one; the keys are unchanged |
| `KeyStore.SetAiProvider` | api_config.py:192-197 | the provider becomes "cohere"; the keys are unchanged |
| `Stories.HookInstruction` | story_generator.py:168-177 | a genre outside the table gets the inspiring hook |
| `Stories.HookType` | story_generator.py:179-188 | a genre outside the table gets "relatable_problem" |
| `Stories.PromptsFor` | story_generator.py:38-39 | every genre, known or not, gets a list of five prompts, so `random.choice` always has one to pick |
| `Stories.TablesAgree` | story_generator.py:170-188 | the hook, hook-type and prompt tables cover the same genres, the configured ones |
| `Stories.UnknownGenreIsInspiring` | story_generator.py:38-42 | an unknown genre gets exactly the prompts, hook and hook type of "inspiring" (also lines 177 and 188) |
| `Stories.PromptingFor` | story_generator.py:38-43 | every genre gets its own name back and a list of five prompts to choose from |
| `Stories.PromptShape` | story_generator.py:39-43 | the prompt is the hook, "\n\n", then the chosen genre prompt |
| `Stories.ContinuationPrompt` | story_generator.py:114-121 | the prompt quotes the genre and the original story |
| `Stories.Title` | story_generator.py:190-201 | the stripped first line when it has at most 50 characters, else its first 50 and "...", so at most 53 |
| `Stories.StoryLinesMembers` | story_generator.py:209-213 | a line survives exactly when its stripped form is neither blank nor metadata |
| `Stories.KeepStoryLines` | story_generator.py:206-213 | the line loop keeps the stripped non-blank, non-metadata lines in order |
| `Stories.CleanStoryText` | story_generator.py:203-225 | the method computes `CleanedStory` |
| `Stories.CleanedIsJoinedWords` | story_generator.py:216-223 | the cleaned story is a list of words joined by single blanks |
| `Stories.CleanedStoryShape` | story_generator.py:203-225 | no newline, no white space at either end, no run of white space; when not empty it ends in '.', '!' or '?' |
| `Stories.MetadataLineCleansToNothing` | story_generator.py:203-225 | a single metadata line leaves no story line and cleans to "" |
| `Stories.CleanedIsNotMetadata` | story_generator.py:212 | the cleaned text never starts like a metadata line |
| `Stories.CleanedEmptyIff` | story_generator.py:203-225 | the cleaned story is "" exactly when every line is blank or metadata |
| `Stories.CleanShapedIsFixed` | story_generator.py:203-225 | tidy words that end a sentence and do not read as metadata clean to themselves |
| `Stories.CleanedStoryIdempotent` | story_generator.py:203-225 | cleaning a cleaned story changes nothing |
| `Stories.TitleOfCleaned` | story_generator.py:190-201 | the title of a cleaned story is its opening: all of it up to 50 characters, else 50 and "..." (also lines 64 and 74) |
| `Stories.ClientFor` | story_generator.py:17-23 | a truthy key gives a client for it; otherwise there is none |
| `Stories.StoryPassesMeaning` | story_generator.py:36-95 | `StoryPass`: pass `i` sends the hook instruction, a blank line and the chosen prompt of its genre, and it rotates the keys exactly when that request raised |
| `Stories.RunStoryTrace` | story_generator.py:30-95 | `RunStory`: request `j` carries pass `j`'s prompt; every request but the last raised; a result comes from the non-blank reply to the last one |
| `Stories.RunStoryRotates` | story_generator.py:88-93 | the Cohere list a run leaves is a rotation of the one it started with |
| `Stories.StoryClientFollowsRotation` | story_generator.py:17-23 | with Cohere preferred and truthy keys every rotation yields a client for its first key (also line 92) |
| `Stories.RaisedPassesRotate` | story_generator.py:85-95 | the passes whose request raised are the ones that rotate |
| `Stories.EveryKeyTriedInTurn` | story_generator.py:88-93 | failures try the keys in list order, one request each, and the run is still retrying when every pass fails |
| `Stories.BlankReplyDoesNotRotate` | story_generator.py:57-61 | blank generated text ends the run with no story and no rotation |
| `Stories.MetadataOnlyReplyGivesEmptyStory` | story_generator.py:57-83 | metadata-only text still gives a saved story, whose text is "" (also lines 221-225) |
| `Stories.FindScriptIsFirstMatch` | story_generator.py:248-260 | `FindScript`: a record is found exactly when a `.json` file with the id exists with only readable `.json` files before it, and then it is the first such file's record |
| `Stories.LoadScriptById` | story_generator.py:241-260 | the loop computes `LoadedScript`: none without the directory, else the first match |
| `Stories.ContinuationRequest` | story_generator.py:97-135 | no client or no script means no request and no record; otherwise one request quoting the original story |
| `Stories.ContinuationRecordExists` | story_generator.py:135-166 | a record comes back exactly when there is a client, a script for the id, and the reply is non-blank text |
| `Stories.ContinuationRecord` | story_generator.py:135-166 | `Continued`: the record is a continuation of the original's genre, pointing at the original id, titled "Continuation: " plus the original title, whose story is the cleaned reply and has the cleaned-story shape |
| `Stories.StoryGenerator.constructor` | story_generator.py:12-14 | the client is built from the current preferred key |
| `Stories.StoryGenerator.UpdateCohereClient` | story_generator.py:17-23 | the client becomes `StoryClient` of the current store |
| `Stories.StoryGenerator.GenerateStory` | story_generator.py:30-95 | outcome, requests, the Cohere list left behind and the last client are those of `RunStory`; the ElevenLabs list and provider are unchanged |
| `Stories.StoryGenerator.GenerateWith` | story_generator.py:30-95 | the retry loop over the passes gives the outcome, requests, Cohere list and client of `RunStory`, for any prompting |
| `Stories.StoryGenerator.GenerateContinuation` | story_generator.py:97-166 | the record and the request are `Continued` of the client and the script found for the id |
| `Narration.KeyClient` | voice_generator.py:22-24 | a key is used exactly when it is not '' |
| `Narration.VoiceKeyChoice` | voice_generator.py:13-18 | `VoiceKey` is exactly the first ElevenLabs key when there is one, else the environment value, else '' |
| `Narration.VoicePathShape` | voice_generator.py:31-33 | the audio lies in the temp directory as `voice_{id}_{stamp}.mp3`, or `voice_{stamp}.mp3` without a truthy id |
| `Narration.VoicePassAnswer` | voice_generator.py:58-65 | `VoicePass`: a pass answers with a path only after status 200, and the path is that pass's audio path |
| `Narration.VoicePassesMeaning` | voice_generator.py:58-77 | every pass sends the cleaned text, and a pass rotates the keys exactly when an answer came back with a status other than 200 |
| `Narration.RunVoice` | voice_generator.py:20-81 | with the key '' nothing is sent, nothing returned and the keys are unchanged; never more requests than passes |
| `Narration.RunVoiceSendsCleanedText` | voice_generator.py:47-48 | the first request and every retry send the same cleaned text (also lines 28 and 75) |
| `Narration.RunVoiceTrace` | voice_generator.py:60-77 | every request but the last met a status other than 200; an exhausted run has used every pass |
| `Narration.RunVoiceAnswer` | voice_generator.py:60-65 | a path comes only from status 200 in the last pass, and it is that pass's audio path |
| `Narration.RunVoiceRotates` | voice_generator.py:73 | the ElevenLabs list a run leaves is a rotation of the one it started with |
| `Narration.ExceptionDoesNotRotate` | voice_generator.py:79-81 | an exception ends the run with nothing after one request, and the keys stay where they were |
| `Narration.FailedStatusRotates` | voice_generator.py:66-77 | a status other than 200 with at most one key ends with nothing; with more keys the list rotates, the key is refreshed and the same text is sent again |
| `Narration.VoiceClientFollowsRotation` | voice_generator.py:13-18 | with truthy keys every rotation yields its first key (also line 74) |
| `Narration.FailedPassesRotate` | voice_generator.py:66-75 | the passes that met a status other than 200 are the ones that rotate |
| `Narration.EveryVoiceKeyTriedInTurn` | voice_generator.py:70-75 | failures try the keys in list order, one request each, and the run is still retrying when every pass fails |
| `Narration.VoiceGenerator.constructor` | voice_generator.py:8-11 | the key is taken as `update_api_key` takes it |
| `Narration.VoiceGenerator.UpdateApiKey` | voice_generator.py:13-18 | the key becomes `VoiceKey` of the ElevenLabs list and the environment |
| `Narration.VoiceGenerator.RotateKeys` | voice_generator.py:73-74 | the ElevenLabs list is rotated left once and the key refreshed from it; nothing else changes |
| `Narration.VoiceGenerator.CleanTextForVoice` | voice_generator.py:83-105 | the result is `clean_story_text` of the text |
| `Narration.VoiceGenerator.GenerateVoice` | voice_generator.py:20-81 | outcome, requests, the ElevenLabs list left and the key held are those of `RunVoice` on the cleaned text; the Cohere list and provider are unchanged |
| `Narration.VoiceGenerator.SendVoice` | voice_generator.py:58-77 | the retry loop gives the outcome, requests, ElevenLabs list left and key held of `RunVoice` from the list and key it starts with; the Cohere list and provider are unchanged |
| `Backgrounds.MillisStamp` | background_video.py:22 | the stamp with its last three characters dropped |
| `Backgrounds.BackgroundNameShape` | background_video.py:22-28 | the path is the background directory, "/", and `processed_background_{id}_{ms}.mp4` (no id part without a truthy id); the cleanup glob matches the name (also line 187) |
| `Backgrounds.SegmentLength` | background_video.py:120-124 | `min(target if target is not None else MAX_DURATION, total)`: at most both, and equal to one of them |
| `Backgrounds.LatestStart` | background_video.py:127 | `max(0, total - target)` |
| `Backgrounds.StartInRange` | background_video.py:130-135 | the start lies in [0, latest], and is 0 when latest is 0 |
| `Backgrounds.SegmentInsideClip` | background_video.py:120-138 | the segment is as long as asked for, or as the clip, and ends inside the clip |
| `Backgrounds.CropInsideFrame` | background_video.py:141-154 | the crop rectangle lies inside the frame |
| `Backgrounds.CropShape` | background_video.py:145-154 | `CropRect`: a wider frame keeps the centred full-height band `h*1080//1920` wide; a taller one the centred full-width band `w*1920//1080` high; a 9:16 frame is kept whole |
| `Backgrounds.BackgroundOutcome` | background_video.py:19-177 | `GetRandomBackground` and `ProcessForShorts`: the output path is returned in every branch. A processed segment needs an existing local clip that loads with nonzero height and is written, and it lies inside the clip. Otherwise the animated background is tried and then the flat one, both lasting `MAX_DURATION` |
| `Backgrounds.LocalClipIsConfigured` | background_video.py:10 | the configured local clip is the first `BACKGROUND_VIDEOS` entry, and that path is not empty |
| `Backgrounds.LocalClipFirst` | background_video.py:31-36 | the background is the processed local clip exactly when the clip exists, and otherwise the animated background with the flat one as its fallback |
| `Backgrounds.Globbed` | background_video.py:187 | the glob finds at most as many files as are listed |
| `Backgrounds.GlobbedMembers` | background_video.py:187 | a file is found exactly when a listed name matches `processed_background_*.mp4`, and it is then that name's path in the background directory |
| `Backgrounds.SortByMtime` | background_video.py:191 | the sort is a permutation of the files |
| `Backgrounds.SortIsOldestFirst` | background_video.py:191 | the sort orders the files oldest first |
| `Backgrounds.CleanupChoosesOldest` | background_video.py:189-195 | `FilesToRemove`: at most `max_files` files are kept untouched. Above that, with a positive limit, exactly the surplus is removed, and every removed file is no newer than every kept one. With a limit of 0 nothing is removed |
| `Backgrounds.RemovedPaths` | background_video.py:195-200 | a path is removed exactly when it is chosen and its removal does not raise |
| `Backgrounds.CleanupOldVideos` | background_video.py:183-202 | the removal loop removes `RemovedPaths` of the chosen files |
| `Editing.FitMatchesAudio` | video_editor.py:29-35 | `FitBackground`: trimmed exactly when the background is longer. Otherwise it loops with `loops * b > a >= (loops - 1) * b`. The fitted clip lasts exactly the audio's length. Only a zero-length background raises |
| `Editing.FortyTwoOverTwenty` | video_editor.py:34 | 42 s of audio over a 20 s background loops 3 times |
| `Editing.EqualLengthsLoopTwice` | video_editor.py:34 | equal lengths loop twice, where a ceiling would give 1 |
| `Editing.OutputPathShape` | video_editor.py:44-46 | the output is `output/{video_id}_{timestamp}.mp4` |
| `Editing.EditOutcome` | video_editor.py:17-68 | `CreateVideoWithSubtitles`: the subtitle step gets a clip as long as the audio at 1080x1920, the story text and the output path. The path is returned exactly when that step's result is truthy |
| `Editing.CreateVideoOutcome` | video_editor.py:70-114 | `CreateVideo` returns the given path exactly when both clips load, the background is not empty and the write succeeds; the clip written is as long as the audio |
| `Editing.GetVideoDuration` | video_editor.py:121-129 | the clip's length, or 0 when loading raises |
| `Orchestrator.KeyCheck` | main.py:39-55 | `ApiKeysReady` needs a truthy first ElevenLabs key and a truthy preferred key; without a usable Cohere preference it passes on the ElevenLabs key alone |
| `Orchestrator.ElevenLabsOnlyPasses` | main.py:39-55 | a store with only an ElevenLabs key passes the check (also api_config.py lines 46-52) |
| `Orchestrator.VideoStages` | main.py:57-109 | `GenerateVideo` runs story (or continuation for a truthy id), voice, background, editor, stopping at the first falsy result. Voice, background and editor get the story's id; voice and editor get its text; the background is asked for `MAX_DURATION`. A path is returned exactly when all four ran and the editor's result is truthy, and then it is that result |
| `Orchestrator.BackgroundNeverStops` | main.py:82-89 | the background stage returns a non-empty path, so after a successful voice stage the editor always runs (also background_video.py line 38) |
| `Orchestrator.ScheduleShape` | main.py:118-129 | runs and 2-second pauses alternate, starting with a run; `count` runs give `2*count - 1` events, with no pause after the last |
| `Orchestrator.Successes` | main.py:122-123 | at most one path per run, none empty |
| `Orchestrator.SuccessesAreRuns` | main.py:118-131 | a path is in the batch's result exactly when some run returned it truthy |
| `Orchestrator.BatchResults` | main.py:120-123 | run `i` gives a truthy path exactly when all four stages of its `generate_video(genre)` ran and the editor's result is truthy, and any path it gives is that result |
| `Orchestrator.GenerateBatch` | main.py:111-132 | a failed key check returns None with no run. Otherwise the result is the truthy paths of the `count` runs in order, and the events follow `Schedule` |

## Left out

- `PyStrings.Strip`: the slice equation `strip() == s[StripOffset(s)..StripOffset(s) + len(strip())]` is the lemma `PyStrings.StripIsSlice`, not an `ensures` of `Strip`, because stating it there makes every caller's proof run out of resource. Together the two state the whole of `strip()`.
- `PyStrings.PathJoin` and `PyStrings.SplitExt` follow POSIX paths (`posixpath`): `/` is the only separator, and a leading dot does not start an extension. Windows paths (`\\` separators, drive letters) and its case-insensitive `glob` are not modelled.
- `KeyStore.ApiConfig.LoadApiKeys`: a key file whose `cohere_keys` or `elevenlabs_keys` is JSON `null` (api_config.py:27-28) is not modelled. `data.get` would then store `None`, and the first later use raises. The model's key file always holds lists, or is missing or unreadable.
- `Stories.Reply`: `Raised` stands for an exception from the `generate` call or from reading `response.generations[0].text` (story_generator.py:46-56). A failed `save_script` is not one: `save_script` catches its own exceptions and only prints (story_generator.py:227-239), so the story is still returned, as the model has it.
- `Stories.StoryGenerator.GenerateContinuation`: a loaded script that lacks `story`, `genre` or `title` raises `KeyError` at story_generator.py:110-111, which the handler at line 152 turns into `None`. The model's `StoryRecord` always has those fields, so that path is not modelled.
- `Backgrounds.Processed`: the outcome keeps the segment and the crop, but not the final resize to 1080x1920 (background_video.py:157), which is fixed for every processed clip.
- Network calls to Cohere and ElevenLabs are not modelled. Their outcomes (generated text, an exception, an HTTP status) are parameters.
- The media library (moviepy) is not modelled: loading, `subclip`, `loop`, `crop`, `resize`, compositing, `TextClip`, writing. Clips are records of length and size, and whether a call raises is a parameter.
- `Editing.EditInputs`: `resize` and `set_audio` in `create_video_with_subtitles` (video_editor.py:38, 41) are taken never to raise. Had one raised, the subtitle step would not be called. The returned path would still be `None`, which is what the model gives when the subtitle step raises.
- File I/O is not modelled: the key file, `save_script`, `os.makedirs`, `os.remove`, `os.path.exists`, `glob`, `os.listdir`. Listings, file contents and failures are parameters.
- The clock, `uuid` and `random` are parameters: the time stamp, the video id, the prompt choice, and the uniform draw in [0, 1).
- `random.seed(hash(output_path) ...)` is not modelled. Python's string hash is salted per process, so the start is any value in the legal range.
- The colours of the generated backgrounds and the per-pixel gradient `make_frame` (background_video.py:54-68) are not modelled; they are floating-point image synthesis.
- Floating point is not modelled. Durations are exact reals. The aspect comparison `w / h > target_w / target_h` is compared exactly, by cross-multiplication.
- `KeyStore.Retry`: the unbounded recursion of both generators is modelled over the passes supplied. A run that uses them all ends `StillRetrying`. Nothing is claimed about termination or about Python's recursion limit.
- `Narration.VoiceGenerator.GenerateVoice`: the text is cleaned once, before the loop, not again on each retry. The retry passes the same text, so each cleaning gives the same result.
- `Narration.VoicePass`: an exception raised before the request is sent (building the path, creating the directory) is treated as raised by the request, so it is counted as one request sent.
- `Stories.StoryGenerator.GenerateStory`: `main.py` calls `generate_story(None)` when no genre is given. The model's genre is a string, and `None` behaves as an unknown genre. The record's `genre` field, which would then be `None`, is not distinguished.
- `PyStrings.Lower`: lower-cases ASCII letters and the Kelvin sign only. That is enough to match the ASCII instruction keywords, and it is not the full Unicode `str.lower()`.
- `Backgrounds.SortByMtime`: it is modelled on a sequence, not sorted in place. Its stability is not stated.
- The caption renderer is missing from the repository. `main.py` and `video_editor.py` import a `SubtitleGenerator` that `subtitle_assemblyai.py` does not define, and its `add_subtitles_to_video` is not part of this model. Its result is a parameter: it raises, or it returns a truthy or falsy value.
- `add_subtitles_to_video_with_assemblyai`, `extract_story_from_scripts` and `create_test_subtitles` (subtitle_assemblyai.py:238-376) are not modelled; they are file search, printing and a demo.
- `list_available_stories`, `get_available_genres`, `save_script`, `ensure_directories` (story_generator.py) are file I/O or a constant listing.
- `list_popular_voices` and `test_voice` (voice_generator.py) are hard-coded listings and a demo call.
- `list_api_keys`, `save_api_keys`, `setup_api_keys` and `add_api_key` (api_config.py) print, write files or read from the terminal.
- `download_sample_backgrounds` (background_video.py:179-181) does nothing.
- `add_watermark` (video_editor.py:116-119) returns its input unchanged; there is nothing to state about it.
- `list_available_scripts`, `continue_story`, `main` and the menus (main.py:134-277) are terminal interaction.
