# The whisper recorder and quizzes, in Dafny

This project models three Streamlit apps:

- the pronunciation recorder `whisper_pronounce.py`;
- the whisper quiz `whisper-english.py`;
- the faster-whisper quiz `faster-whisper-english.py`.

Each rerun of an app shows the prompt under a navigation cursor over an ordered list of prompts (scripts, in the quizzes). It polls a live audio receiver into a buffer kept across reruns. Once the stream has stopped with audio in the buffer, it writes the buffer to a wav file whose name is derived from the prompt's text and position. The recorder moves its cursor with the Previous/Next buttons before it shows and records the prompt. The quizzes record first and handle Next last, so Next sees a wav file written in the same rerun. The recorder registers the recording in a store and can export a manifest and the list of prompts still to record. The quizzes transcribe recordings with a speech model and score exact matches between script and transcript.

Modules, one per concern:

- `Identity`: the file id `md5(text + str(position))` and the `<id>.wav` name. md5 is an opaque `digest` function parameter; `str` is modelled exactly, with its inverse.
- `Manuscripts`: how the recorder's text area becomes the prompt list (`split("\n")`, blank lines dropped).
- `Navigation`: the recorder's `Counter`, a class whose `index` the buttons move and whose `total` `main` sets once.
- `Capture`: the polling loop shared by all three apps, as a method proved against the function `Captured`.
- `Records`: `Record` and the record store `RecordStrage`. The store is a class. A `keys` sequence beside the map keeps Python's dict insertion order, which the manifest follows.
- `Pronounce`: the recorder's session. It holds the counter, the store, the audio buffer and the wav files on disk, modelled as a map from path to audio.
- `TextFormat`: `format_string`.
- `Quiz`: `Question` (a class; only `transcript` is ever reassigned), the score and the results listing shared by both quizzes.
- `WhisperEnglish` and `FasterWhisper`: the two quiz sessions, one rerun of `main` each.
- `Wrappers`: the optional value for Python's `Optional[...]`, and duplicate-free sequences.

Outside effects become parameters:

- the receiver's behaviour during one rerun is a sequence of polls;
- whether the stream is still playing, and which button is pressed, are booleans;
- whether the wav export succeeds is a boolean;
- each speech model is a function from a wav file's audio to its text (whisper) or to its segments (faster-whisper).

Behaviour of the code that the model keeps, and why it matters:

- The recorder enters the record into the store *before* the wav export (`whisper_pronounce.py:283-284`). A failed export therefore still leaves the record registered, and the manifest can name a wav file that was never written.
- The buffer is emptied after every finalize, including a failed export (`whisper_pronounce.py:288-289`). The audio of a failed export is lost.
- The unrecorded prompts are those whose *position* no record claims (`whisper_pronounce.py:164-168`), not those whose identity is missing. After the prompt list is edited, a new prompt at a recorded position counts as recorded.
- The file id hashes the bare concatenation of text and position. The pairs ("a1", 2) and ("a", 12) therefore always share a file (`Identity.CollidingPrompts`), and recording one overwrites the other's wav.
- A finished transcription is written into its question unconditionally. There is no check for a stale result.
- The quizzes only create their recordings directory when it is missing (`whisper-english.py:128-129`, `faster-whisper-english.py:197-198`). Wav files of earlier sessions keep their md5-derived names, so a leftover file lets Next move on before anything was recorded in this session (`WhisperEnglish.LeftoverFileAdvances`, `FasterWhisper.LeftoverFileAdvances`).
- In the faster-whisper quiz, the cursor is reset to 0 on every rerun (`faster-whisper-english.py:203`). The dispatch of transcriptions is commented out (`faster-whisper-english.py:265`), so no question ever receives a transcript. With more than one script the results screen is unreachable, and the score always counts the empty scripts.

## Model

| member | source | states |
|---|---|---|
| Identity.Decimal | whisper_pronounce.py:128 | `str(n)` is a non-empty digit string, one digit exactly below 10, with no leading zero except for 0 |
| Identity.DecimalRoundTrip | whisper_pronounce.py:128 | reading back the decimal rendering gives the number |
| Identity.DecimalInjective | whisper_pronounce.py:128 | two positions render alike exactly when they are equal |
| Identity.DigestInput | whisper_pronounce.py:128 | the hashed string starts with the text and ends with digits denoting the position |
| Identity.FileId | whisper_pronounce.py:127-128 | the id is the digest of the text followed by the decimal position |
| Identity.WavName | whisper_pronounce.py:130-132 | the file name is the id followed by `.wav` |
| Identity.OutputWavName | whisper_pronounce.py:130-132 | the file name is the `.wav` name of the id of (text, position) |
| Identity.WavNameRoundTrip | whisper_pronounce.py:130-132 | stripping `.wav` from the file name gives back the id |
| Identity.WavNameInjective | whisper_pronounce.py:130-132 | two file names agree exactly when the ids agree |
| Identity.SameDigestInputSameName | whisper_pronounce.py:126-132 | two (text, position) pairs with the same concatenation get the same id and file, for any digest |
| Identity.CollidingPrompts | whisper_pronounce.py:126-132 | text "a1" at position 2 and text "a" at position 12 share one wav file |
| Identity.SameTextDigestInputInjective | whisper_pronounce.py:128 | for one text, distinct positions give distinct hashed strings |
| Manuscripts.Split | whisper_pronounce.py:324 | `split("\n")` yields at least one piece and no piece holds a line feed |
| Manuscripts.SplitThenJoin | whisper_pronounce.py:324 | joining the pieces with line feeds restores the text |
| Manuscripts.JoinThenSplit | whisper_pronounce.py:324 | splitting line-free pieces joined by line feeds restores the pieces |
| Manuscripts.NonEmpty | whisper_pronounce.py:324 | the filter keeps only non-empty pieces taken from its input |
| Manuscripts.FromText | whisper_pronounce.py:324 | every prompt is non-empty and holds no line feed |
| Manuscripts.NonEmptyKeepsNonEmpty | whisper_pronounce.py:324 | the filter changes nothing when no piece is empty |
| Manuscripts.FromTextOfJoinedLines | whisper_pronounce.py:324 | non-blank lines written one per line are read back unchanged, in order |
| Manuscripts.NonEmptyDistributes | whisper_pronounce.py:324 | blank lines contribute no prompt wherever they occur |
| Navigation.NextIndex | whisper_pronounce.py:194-196 | `next` moves the cursor up by one only with a truthy total and off the last prompt |
| Navigation.PreviousIndex | whisper_pronounce.py:198-200 | `previous` moves the cursor down by one only off the first prompt |
| Navigation.Step | whisper_pronounce.py:19-26 | a press of Next or Previous applies the matching counter method |
| Navigation.Walk | whisper_pronounce.py:19-26 | the cursor after a sequence of presses, one per rerun, in order |
| Navigation.NextMovesByOne | whisper_pronounce.py:194-196 | Next keeps the cursor in range and moves it by one, except on the last prompt or without a truthy total |
| Navigation.PreviousMovesByOne | whisper_pronounce.py:198-200 | Previous keeps the cursor in range and moves back by one, except on the first prompt |
| Navigation.WalkInRange | whisper_pronounce.py:19-26 | no sequence of button presses takes the cursor out of `[0, total-1]` |
| Navigation.WalkDistance | whisper_pronounce.py:19-26 | each press moves the cursor by at most one |
| Navigation.WalkFromStart | whisper_pronounce.py:186-200 | from a fresh counter, every press sequence leaves the cursor in range |
| Navigation.Counter.constructor | whisper_pronounce.py:186-188 | a new counter is at 0 with no total |
| Navigation.Counter.SetTotal | whisper_pronounce.py:190-192 | sets the total, keeps the index, and is in range when set at index 0 |
| Navigation.Counter.Next | whisper_pronounce.py:194-196 | the new index is the Next step of the old state, and range is preserved |
| Navigation.Counter.Previous | whisper_pronounce.py:198-200 | the new index is the Previous step of the old state, and range is preserved |
| Navigation.Counter.ProgressPercent | whisper_pronounce.py:202-208 | 0 without a truthy total; otherwise in (0, 1], and exactly 1 on the last prompt |
| Capture.Flatten | whisper_pronounce.py:262-270 | the chunk of one batch is its frames appended in arrival order |
| Capture.Captured | whisper_pronounce.py:249-275 | the audio of every batch before the receiver goes away, in order, skipping timeouts |
| Capture.JoinFrames | whisper_pronounce.py:262-270 | the batch's chunk is its frames laid end to end |
| Capture.Capture | whisper_pronounce.py:249-277 | the buffer after the loop is the old buffer followed by all audio captured before the receiver goes away |
| Capture.FlattenAppend | whisper_pronounce.py:262-270 | joining frames distributes over concatenation |
| Capture.CapturedAppend | whisper_pronounce.py:249-275 | audio of consecutive poll runs is kept in arrival order |
| Capture.CapturedStopsAtReceiverGone | whisper_pronounce.py:274-275 | nothing after the receiver goes away is captured |
| Capture.TimeoutChangesNothing | whisper_pronounce.py:254-257 | a timeout anywhere in the polls changes nothing captured |
| Capture.CapturedEmptyIffNothingHeard | whisper_pronounce.py:272-273 | nothing is captured exactly when no batch before the end carried audio |
| Records.Record.FileId | whisper_pronounce.py:126-128 | a record's id is the id of its text and manuscript index |
| Records.Record.OutputWavName | whisper_pronounce.py:130-132 | a record's file name is the `.wav` name of its id |
| Records.Record.WavFilePath | whisper_pronounce.py:134-136 | a record's wav path is its file name inside its wav directory |
| Records.Record.RecordInfo | whisper_pronounce.py:138-140 | the manifest entry has exactly the keys text and file_name, and the file name is the id plus `.wav` |
| Records.RecordedIndexes | whisper_pronounce.py:164 | the set of manuscript positions claimed by stored records |
| Records.Unrecorded | whisper_pronounce.py:165-168 | the prompts at positions no record claims, in order, duplicates kept |
| Records.UnrecordedCount | whisper_pronounce.py:164-168 | unrecorded prompts plus recorded positions in range add up to the number of prompts |
| Records.UnrecordedMembers | whisper_pronounce.py:164-168 | the list holds exactly the prompts at positions no record claims |
| Records.UnrecordedEmptyIffAllRecorded | whisper_pronounce.py:164-170 | the list is empty exactly when every prompt position is recorded |
| Records.Lines | whisper_pronounce.py:170-173 | each pending prompt followed by a line feed, in order |
| Records.LinesIsJoin | whisper_pronounce.py:171-173 | the file is the prompts joined by line feeds, with a final line feed |
| Records.LinesReadBack | whisper_pronounce.py:171-173 | reading the file back as a prompt list gives the same prompts |
| Records.WriteLines | whisper_pronounce.py:171-173 | the write loop produces the one-prompt-per-line file |
| Records.RecordStore.constructor | whisper_pronounce.py:142-145 | a new store has no prompts and no records |
| Records.RecordStore.NumWavFiles | whisper_pronounce.py:147-149 | the count is the number of distinct keys in insertion order |
| Records.RecordStore.Register | whisper_pronounce.py:283 | the record is stored under its wav name; a re-recording replaces it and never adds a second key |
| Records.IndexedInsert | whisper_pronounce.py:283 | storing a record under its own name keeps the keys distinct, in step with the map, and each naming its record; a new name is appended, an old one keeps its place |
| Records.RecordStore.RecordInfos | whisper_pronounce.py:151-158 | one manifest entry per record, in dict insertion order |
| Records.RecordStore.UnrecordedTexts | whisper_pronounce.py:164-168 | the loop collects the prompts at unrecorded positions, in order |
| Records.RecordStore.ExportUnrecordedTexts | whisper_pronounce.py:160-173 | no file when nothing is pending, else the pending prompts one per line |
| Records.ManifestListsEachRecordOnce | whisper_pronounce.py:151-158 | every stored record has exactly one manifest entry, naming its own file |
| Records.Manifest | whisper_pronounce.py:151-158 | one manifest entry per key, in key order, each the entry of the record stored under it |
| Records.ManifestFileNames | whisper_pronounce.py:151-158 | manifest entry i names the wav file of the i-th key |
| Pronounce.Session.constructor | whisper_pronounce.py:296-306 | startup gives a fresh counter and store, no wav files and an empty buffer |
| Pronounce.Session.PrepareRecord | whisper_pronounce.py:323-334 | an empty text area shows nothing; otherwise the prompts are stored, the total is fixed once, and the record is built for the cursor or the lookup fails out of range |
| Pronounce.Session.Finalize | whisper_pronounce.py:279-289 | the record is registered even when the export fails, the wav is written only when it succeeds, and the buffer is emptied either way |
| Pronounce.Session.ExportAndClear | whisper_pronounce.py:284-289 | the path holds the buffer only after a successful export, and the buffer is empty afterwards |
| Pronounce.Session.Recording | whisper_pronounce.py:245-289 | on finalize the record is registered, the wav written if the export succeeds, and the buffer emptied; otherwise only the buffer grows; the prompt list never changes |
| Pronounce.Session.Run | whisper_pronounce.py:309-343 | buttons move the cursor first; the prompts and total are stored as the text area says; a record exists exactly for a cursor inside the prompt list, and then the store, buffer and wav files are as its capture leaves them; otherwise none of them changes; nothing is shown exactly for an empty text area, and the lookup fails exactly for a non-empty one whose prompts end before the cursor |
| Pronounce.Session.Navigate | whisper_pronounce.py:19-26 | a pressed button moves the cursor by the counter's Previous or Next step and keeps the counter valid; without a press the cursor stays; the total never changes |
| Pronounce.Session.Present | whisper_pronounce.py:322-343 | the cursor is not moved; the prompts and total are stored as the text area says; a record exists exactly for a cursor inside the prompt list, and then the store, buffer and wav files are as its capture leaves them; otherwise none of them changes; nothing is shown exactly for an empty text area, and the lookup fails exactly for a non-empty one whose prompts end before the cursor |
| Pronounce.Session.ProceedToDownload | whisper_pronounce.py:75-87 | manifest length equals the wav count; the unrecorded file is absent exactly when every position is recorded |
| TextFormat.RemoveChar | whisper-english.py:100-101 | `replace(c, '')` never lengthens the text |
| TextFormat.RemoveCharMembers | whisper-english.py:100-101 | `replace(c, '')` keeps exactly the characters other than `c` |
| TextFormat.RemoveCharAppend | whisper-english.py:100-101 | `replace(c, '')` distributes over concatenation, so the kept characters stay in order |
| TextFormat.RemoveCharSingle | whisper-english.py:100-101 | on one character, `replace(c, '')` drops it exactly when it is `c` |
| TextFormat.StripStart | whisper-english.py:102 | what is left after the leading whitespace starts with a non-space |
| TextFormat.StripStartSuffix | whisper-english.py:102 | only an all-space prefix is removed, the rest is kept as it is |
| TextFormat.StripEnd | whisper-english.py:102 | what is left after the trailing whitespace ends with a non-space, and starts where the text did |
| TextFormat.StripEndPrefix | whisper-english.py:102 | only an all-space suffix is removed, the rest is kept as it is |
| TextFormat.Strip | whisper-english.py:102 | no whitespace is left at either end |
| TextFormat.StripIsSlice | whisper-english.py:102 | the result is the slice between an all-space prefix and an all-space suffix, and holds only characters of the text |
| TextFormat.FormatString | whisper-english.py:99-103 | the result has no comma, no full stop and no surrounding whitespace |
| TextFormat.RemoveAbsentChar | whisper-english.py:100-101 | removing an absent character changes nothing |
| TextFormat.FormattedIffFixedPoint | whisper-english.py:99-103 | formatted strings are exactly the fixed points of `format_string` |
| TextFormat.FormatStringIdempotent | whisper-english.py:99-103 | formatting twice is formatting once |
| TextFormat.PunctuatedNeverFormatted | whisper-english.py:99-103 | a text holding a comma or full stop is never a `format_string` result |
| Quiz.Question.constructor | whisper-english.py:5-10 | the fields are the given values |
| Quiz.Question.FileId | whisper-english.py:12-14 | a question's id is the id of its script and script index |
| Quiz.Question.OutputWavName | whisper-english.py:16-18 | a question's file name is the `.wav` name of its id |
| Quiz.Question.WavFilePath | whisper-english.py:20-22 | a question's wav path is its file name inside its wav directory |
| Quiz.Question.RecordInfo | whisper-english.py:24-26 | the entry has exactly the keys script and file_name, and the file name is the id plus `.wav` |
| Quiz.NewQuestions | whisper-english.py:157-161 | question i holds script i with an empty transcript; all are distinct and new |
| Quiz.FreshTranscripts | whisper-english.py:157-161 | a freshly built list has one empty transcript per script |
| Quiz.Matches | whisper-english.py:196-198 | the score is at most the number of questions |
| Quiz.Score | whisper-english.py:192-198 | the score loop counts the questions whose transcript equals the script |
| Quiz.MatchesAll | whisper-english.py:196-198 | a full score exactly when every transcript matches its script |
| Quiz.MatchesNone | whisper-english.py:196-198 | a zero score exactly when no transcript matches |
| Quiz.FreshListScore | faster-whisper-english.py:271-277 | while no transcript has been written, the score counts the empty scripts |
| Quiz.Views | whisper-english.py:200-207 | one listing per question; it is "processing" exactly when the transcript is empty |
| WhisperEnglish.Transcribe | whisper-english.py:105-107 | the transcript is always formatted: no comma, no full stop |
| WhisperEnglish.AsyncTranscribe | whisper-english.py:109-111 | only this question's transcript changes, to the transcription of its own wav file if present |
| WhisperEnglish.PunctuatedScriptsNeverScore | whisper-english.py:196-198 | scripts holding punctuation never match formatted transcripts |
| WhisperEnglish.Session.constructor | whisper-english.py:125-137 | a session starts with no cursor, no questions, an empty buffer, and the wav files already in the recordings directory |
| WhisperEnglish.Session.Recording | whisper-english.py:50-88 | on finalize the wav is written if the export succeeds and the buffer emptied; otherwise the buffer grows |
| WhisperEnglish.Session.Initialize | whisper-english.py:136-161 | the cursor is created at 0 only when absent; the question list is built only when absent |
| WhisperEnglish.TranscribeQuestion | whisper-english.py:109-111 | a worker on question i changes transcript i, to the formatted transcription of its own file, and no other |
| WhisperEnglish.Session.NextQuestion | whisper-english.py:183-188 | only the current question is transcribed, from its file, the cursor moves on by one, and every transcript stays formatted |
| WhisperEnglish.Session.MaybeNext | whisper-english.py:183-188 | only Next with the wav present transcribes question i and moves the cursor to i + 1; otherwise cursor and transcripts stay |
| WhisperEnglish.Session.ResultsOrPrompt | whisper-english.py:192-209 | the results screen exactly when the cursor has passed the last script, with the score and listing of all questions; otherwise script i |
| WhisperEnglish.Session.Advance | whisper-english.py:183-209 | the Next button as MaybeNext states, then the screen as ResultsOrPrompt states; zero score when every script is punctuated |
| WhisperEnglish.Session.ResultsPassLast | whisper-english.py:183-192 | results appear exactly when Next with the wav present is pressed on the last script, and leave the cursor at the script count |
| WhisperEnglish.Session.ShowResults | whisper-english.py:192-209 | the score and listing of all questions; zero when every script is punctuated |
| WhisperEnglish.Session.Step | whisper-english.py:166-209 | capture into the buffer and write the wav on finalize, then Next and the screen as Advance states |
| WhisperEnglish.Session.Run | whisper-english.py:125-213 | a cursor past the end fails on `scripts[i]` and changes nothing else; otherwise the new buffer, files, cursor, transcripts and screen as Step states |
| WhisperEnglish.ResultsThenIndexError | whisper-english.py:169 | the rerun after the results screen always fails on the script lookup, whatever is pressed or recorded in it |
| WhisperEnglish.BuiltinScoreIsZero | whisper-english.py:145-152 | with the built-in scripts the score shown is always 0 |
| WhisperEnglish.LeftoverFileAdvances | whisper-english.py:128-129 | a wav file left by an earlier session at script 0's name lets the first Next move to question 1 with nothing recorded |
| FasterWhisper.SegmentText | faster-whisper-english.py:160-164 | the transcript is the segment texts appended in order |
| FasterWhisper.SegmentTextAppend | faster-whisper-english.py:160-164 | joining segment texts distributes over concatenation |
| FasterWhisper.PunctuationSurvives | faster-whisper-english.py:160-167 | a character in any segment reaches the transcript, since `format_string` is not applied |
| FasterWhisper.Transcribe | faster-whisper-english.py:133-167 | the transcript is the segment texts in order; empty without segments |
| FasterWhisper.AsyncTranscribe | faster-whisper-english.py:170-176 | only this question's transcript changes, to the transcription of its own wav file if present |
| FasterWhisper.Session.constructor | faster-whisper-english.py:190-203 | a session starts at cursor 0 with no questions, an empty buffer, and the wav files already in the recordings directory |
| FasterWhisper.Session.Recording | faster-whisper-english.py:66-117 | on finalize: export, empty the buffer, transcribe the file; crash exactly when no file exists at the path |
| FasterWhisper.Session.Initialize | faster-whisper-english.py:203-238 | the cursor is reset to 0; the question list is built only when absent |
| FasterWhisper.Session.ShowResults | faster-whisper-english.py:271-288 | the score counts the empty scripts, and every question is listed as processing |
| FasterWhisper.Session.Step | faster-whisper-english.py:244-288 | the cursor ends at 1 exactly on Next with the wav present; results only for a one-script quiz |
| FasterWhisper.Session.Run | faster-whisper-english.py:190-292 | an empty script list fails on `scripts[0]`; the cursor never passes 1; otherwise as Step describes |
| FasterWhisper.BuiltinNeverShowsResults | faster-whisper-english.py:222-229 | with the built-in scripts the results screen is never shown and the lookup never fails |
| FasterWhisper.LeftoverFileAdvances | faster-whisper-english.py:197-198 | a wav file left by an earlier session at script 0's name lets the first Next move the cursor to 1 with nothing recorded |

## Left out

- The Streamlit UI is not modelled: widgets, markdown, the audio player, status boxes and the progress bar's drawing. The button state and the text area's contents are inputs.
- The WebRTC transport and the STUN configuration are not modelled. The receiver is a sequence of polls. A poll sequence that runs out counts as the receiver going away; the real loop would wait.
- pydub decoding (sample width, frame rate, channels) is not modelled. Audio is a sequence of samples.
- Capture.Capture: a chunk counts as audio when it holds at least one sample. pydub's `len` is the duration rounded to whole milliseconds, and Python rounds 0.5 down to 0, so in the source a chunk of at most half a millisecond is not appended (`whisper_pronounce.py:272`); the model appends it, and may then finalize on a buffer holding only such audio, which the source never does (`whisper_pronounce.py:279`). The quizzes make the same checks.
- The wav export is a map update from path to audio when the export succeeds. The encoding and the exception type are not modelled.
- Pronounce.Session.Finalize, WhisperEnglish.Session.Recording and FasterWhisper.Session.Recording: a failed export leaves the files as they were. pydub opens the target file for writing before it encodes, so a failure part-way can leave an empty or partial file, which a later `exists()` check (the quizzes' Next) would accept.
- The zip archive (`compress_wav_files_into_zip`) is not modelled, nor is JSON formatting (indentation, `ensure_ascii`). The recorder's startup wipe of its wav directory (`whisper_pronounce.py:304-306`) is modelled as starting with no files; the quizzes never wipe theirs and start from whatever files are passed in.
- The sidebar's `current / total` text and the `has_at_least_one_wav_file` gate around the sidebar are display logic and are not modelled.
- Navigation.Counter.ProgressPercent: the exact rational `(index+1)/total` stands in for the float division.
- md5 is an opaque digest function, so its collision resistance is not modelled. The two speech models, `whisper.load_model` and `WhisperModel`, are opaque functions of the audio; the model size, beam size and language statistics are not modelled.
- Transcription threads run to completion at dispatch. Interleavings with later reruns, and the refresh button, are not modelled.
- Logging, `print`, timing with `perf_counter`, and the settings loader are not modelled.
- `webrtc_test.py` is not part of this model.
- Positions are natural numbers. The negative indexes Python would accept never arise, because the cursor starts at 0 and never goes below it.
- WhisperEnglish.AsyncTranscribe and FasterWhisper.AsyncTranscribe: when the wav file is missing, the model raises inside the thread. This is modelled as leaving the transcript unchanged. The model's own failures on a file that does exist are not modelled.
