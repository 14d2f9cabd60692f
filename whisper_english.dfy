/**
  The whisper quiz (`whisper-english.py`): one rerun of `main` shows the
  question under the cursor, captures audio for it, and, when Next is pressed
  and the question's wav file exists, hands that question to the transcription
  worker and moves the cursor on. Once the cursor passes the last script the
  results screen is shown. The speech model is an opaque function from the
  audio of a wav file to raw text; the worker thread runs to completion at
  dispatch.
 */
module WhisperEnglish {

  import opened Wrappers
  import opened Identity
  import opened Capture
  import opened TextFormat
  import Quiz

  /** `transcribe`: the model's text for the audio of a wav file, passed through `format_string`. */
  function Transcribe(asr: Chunk -> string, audio: Chunk): (transcript: string)
    ensures Formatted(transcript)
    ensures ',' !in transcript && '.' !in transcript
  {
    FormatString(asr(audio))
  }

  /**
    `async_transcribe`: writes the transcript of the question's own wav file
    into that question only. Without the file the model raises inside the
    worker and the transcript stays as it was.
   */
  method AsyncTranscribe(question: Quiz.Question, digest: string -> string, asr: Chunk -> string, wavFiles: map<FilePath, Chunk>)
    modifies question
    ensures var path := question.WavFilePath(digest);
      question.transcript == if path in wavFiles then Transcribe(asr, wavFiles[path]) else old(question.transcript)
  {
    var path := question.WavFilePath(digest);
    if path in wavFiles {
      var transcript := Transcribe(asr, wavFiles[path]);
      question.transcript := transcript;
    }
  }

  /** Questions whose scripts hold a comma or full stop never score against formatted transcripts. */
  lemma {:induction false} PunctuatedScriptsNeverScore(qs: seq<Quiz.Question>)
    requires forall i :: 0 <= i < |qs| ==> Formatted(qs[i].transcript)
    requires forall i :: 0 <= i < |qs| ==> ',' in qs[i].script || '.' in qs[i].script
    ensures Quiz.Matches(qs) == 0
  {
    forall i | 0 <= i < |qs|
      ensures qs[i].script != qs[i].transcript
    {
    }
    Quiz.MatchesNone(qs);
  }

  /** Question `i` belongs to script `i`, each question once; these fields never change after creation. */
  predicate Shaped(qs: seq<Quiz.Question>, scripts: seq<string>, recordDir: string) {
    && |qs| == |scripts|
    && Distinct(qs)
    && forall i :: 0 <= i < |qs| ==> qs[i].scriptIndex == i && qs[i].script == scripts[i] && qs[i].wavDirPath == recordDir
  }

  /** Every transcript is a `format_string` result (the empty transcript is one). */
  predicate AllFormatted(ts: seq<string>) {
    forall i :: 0 <= i < |ts| ==> Formatted(ts[i])
  }

  /** The question list of a session whose scripts are `scripts`. */
  ghost predicate WellFormed(qs: seq<Quiz.Question>, scripts: seq<string>, recordDir: string)
    reads qs
  {
    Shaped(qs, scripts, recordDir) && AllFormatted(Quiz.Transcripts(qs))
  }

  /** Updating one transcript with a formatted one keeps every transcript formatted. */
  lemma FormattedUpdate(ts: seq<string>, i: nat, t: string)
    requires AllFormatted(ts) && i < |ts| && Formatted(t)
    ensures AllFormatted(ts[i := t])
  {
  }

  /**
    The worker started on question `i` of a list: only that question's
    transcript changes, because no question object appears twice.
   */
  method TranscribeQuestion(qs: seq<Quiz.Question>, i: nat, digest: string -> string, asr: Chunk -> string,
                            wavFiles: map<FilePath, Chunk>)
    requires Distinct(qs) && i < |qs| && qs[i].WavFilePath(digest) in wavFiles
    modifies qs[i]
    ensures Quiz.Transcripts(qs) == old(Quiz.Transcripts(qs))[i := Transcribe(asr, wavFiles[qs[i].WavFilePath(digest)])]
  {
    ghost var before := Quiz.Transcripts(qs);
    AsyncTranscribe(qs[i], digest, asr, wavFiles);
    ghost var after := Quiz.Transcripts(qs);
    assert forall j :: 0 <= j < |qs| ==> after[j] == before[i := qs[i].transcript][j];
  }

  /**
    The buffer and wav files one recording step leaves, from those it
    started with: the capture is appended, and a finished recording is
    written when the export succeeds and then dropped from the buffer.
   */
  predicate Recorded(path: FilePath, polls: seq<Poll>, playing: bool, exportOk: bool,
                     buffer0: Chunk, files0: map<FilePath, Chunk>, buffer: Chunk, files: map<FilePath, Chunk>)
  {
    var heard := buffer0 + Captured(polls);
    if ShouldFinalize(playing, heard) then
      buffer == [] && files == (if exportOk then files0[path := heard] else files0)
    else
      buffer == heard && files == files0
  }

  datatype RunOutcome =
    | IndexError                                            // `scripts[current_question_index]` out of range
    | Prompt(script: string)                                // the question shown this run
    | Results(score: nat, views: seq<Quiz.ResultView>)      // the results screen

  /** The session state of the quiz: the cursor, the question list, the audio buffer and the wav files on disk. */
  class Session {
    const digest: string -> string
    const scripts: seq<string>
    const recordDir: string
    var currentQuestionIndex: Option<nat>
    var hasQuestions: bool
    var questions: seq<Quiz.Question>
    var audioBuffer: Chunk
    var wavFiles: map<FilePath, Chunk>

    /** Question `i` belongs to script `i`, and every transcript is a `format_string` result (or still empty). */
    ghost predicate Valid()
      reads this, questions
    {
      && (!hasQuestions ==> questions == [])
      && (hasQuestions ==> WellFormed(questions, scripts, recordDir))
    }

    /**
      A session before its first run: no cursor, no questions, nothing in the
      buffer. The recordings directory is only created when missing, so the
      wav files of earlier sessions are still there.
     */
    constructor (digest: string -> string, scripts: seq<string>, recordDir: string, files: map<FilePath, Chunk>)
      ensures Valid()
      ensures this.digest == digest && this.scripts == scripts && this.recordDir == recordDir
      ensures currentQuestionIndex == None && !hasQuestions && audioBuffer == [] && wavFiles == files
    {
      this.digest := digest;
      this.scripts := scripts;
      this.recordDir := recordDir;
      currentQuestionIndex := None;
      hasQuestions := false;
      questions := [];
      audioBuffer := [];
      wavFiles := files;
    }

    /** The wav path of script `i`. */
    function PathOf(i: nat): FilePath
      requires i < |scripts|
    {
      FilePath(recordDir, OutputWavName(digest, scripts[i], i))
    }

    /** `WebRTCRecord.recording` for this quiz: capture, then export and reset on finalize. */
    method Recording(path: FilePath, polls: seq<Poll>, playing: bool, exportOk: bool)
      modifies this`audioBuffer, this`wavFiles
      ensures Recorded(path, polls, playing, exportOk, old(audioBuffer), old(wavFiles), audioBuffer, wavFiles)
    {
      audioBuffer := Capture.Capture(audioBuffer, polls);
      if !playing && |audioBuffer| > 0 {
        if exportOk {
          wavFiles := wavFiles[path := audioBuffer];
        }
        audioBuffer := [];
      }
    }

    /** The transcripts of the question list, in order. */
    ghost function Transcripts(): (ts: seq<string>)
      reads this, questions
    {
      Quiz.Transcripts(questions)
    }

    /** The session keys `main` creates when absent: the cursor at 0 and the question list. */
    method Initialize()
      requires Valid()
      modifies this`currentQuestionIndex, this`hasQuestions, this`questions
      ensures Valid() && hasQuestions
      ensures currentQuestionIndex == Some(if old(currentQuestionIndex).Some? then old(currentQuestionIndex).value else 0)
      ensures old(hasQuestions) ==> questions == old(questions) && Transcripts() == old(Transcripts())
      ensures !old(hasQuestions) ==> Transcripts() == seq(|scripts|, _ => [])
      ensures forall j :: 0 <= j < |questions| ==> questions[j] in old(questions) || fresh(questions[j])
    {
      if currentQuestionIndex.None? {
        currentQuestionIndex := Some(0);
      }
      if !hasQuestions {
        questions := Quiz.NewQuestions(scripts, recordDir);
        hasQuestions := true;
        Quiz.FreshTranscripts(questions, scripts, recordDir);
        assert AllFormatted(Transcripts());
      }
    }

    /** Next with the wav present: transcribe the question under the cursor, then move the cursor on. */
    method NextQuestion(i: nat, asr: Chunk -> string)
      requires Valid() && hasQuestions && i < |scripts| && currentQuestionIndex == Some(i) && PathOf(i) in wavFiles
      modifies this`currentQuestionIndex, questions[i]
      ensures Valid()
      ensures currentQuestionIndex == Some(i + 1)
      ensures Transcripts() == old(Transcripts())[i := Transcribe(asr, wavFiles[PathOf(i)])]
    {
      ghost var before := Transcripts();
      assert questions[i].WavFilePath(digest) == PathOf(i);
      TranscribeQuestion(questions, i, digest, asr, wavFiles);
      currentQuestionIndex := Some(i + 1);
      FormattedUpdate(before, i, questions[i].transcript);
    }

    /** The results screen: the score and the listing of every question. */
    method ShowResults() returns (out: RunOutcome)
      requires Valid() && hasQuestions
      ensures out.Results? && out.score == Quiz.Matches(questions) && out.views == Quiz.Views(questions)
      ensures (forall k :: 0 <= k < |scripts| ==> ',' in scripts[k] || '.' in scripts[k]) ==> out.score == 0
    {
      var score := Quiz.Score(questions);
      out := Results(score, Quiz.Views(questions));
      if forall k :: 0 <= k < |scripts| ==> ',' in scripts[k] || '.' in scripts[k] {
        PunctuatedScriptsNeverScore(questions);
      }
    }

    /**
      The cursor and transcripts the Next button leaves, with the cursor at
      `i` and the transcripts `before`: only Next with the wav present
      transcribes question `i` (from its own file) and moves the cursor on.
     */
    ghost predicate Moved(i: nat, nextPressed: bool, asr: Chunk -> string, before: seq<string>)
      requires i < |scripts| == |before|
      reads this, questions
    {
      var advance := nextPressed && PathOf(i) in wavFiles;
      && currentQuestionIndex == Some(if advance then i + 1 else i)
      && Transcripts() == (if advance then before[i := Transcribe(asr, wavFiles[PathOf(i)])] else before)
    }

    /** What the page ends with: the results once the cursor has passed the last script, else question `i`. */
    ghost predicate Shown(i: nat, out: RunOutcome)
      requires i < |scripts| && currentQuestionIndex.Some?
      reads this, questions
    {
      && (out.Results? <==> currentQuestionIndex.value >= |scripts|)
      && (out.Prompt? ==> out.script == scripts[i])
      && (out.Results? ==> out.score == Quiz.Matches(questions) && out.views == Quiz.Views(questions))
      && !out.IndexError?
    }

    /** The Next button: with the wav present, transcribe the question under the cursor and move on. */
    method MaybeNext(i: nat, nextPressed: bool, asr: Chunk -> string)
      requires Valid() && hasQuestions && i < |scripts| && currentQuestionIndex == Some(i)
      modifies this`currentQuestionIndex, questions[i]
      ensures Valid()
      ensures Moved(i, nextPressed, asr, old(Transcripts()))
    {
      if nextPressed && PathOf(i) in wavFiles {
        NextQuestion(i, asr);
      }
    }

    /** The results screen once the cursor has passed the last script, else question `i` stays on screen. */
    method ResultsOrPrompt(i: nat) returns (out: RunOutcome)
      requires Valid() && hasQuestions && i < |scripts| && currentQuestionIndex.Some?
      ensures Shown(i, out)
      ensures (forall k :: 0 <= k < |scripts| ==> ',' in scripts[k] || '.' in scripts[k]) ==>
        out.Results? ==> out.score == 0
    {
      if currentQuestionIndex.value >= |scripts| {
        out := ShowResults();
      } else {
        out := Prompt(scripts[i]);
      }
    }

    /** A rerun whose cursor `i` is in range: show, record, maybe advance, maybe show the results. */
    method Step(i: nat, nextPressed: bool, polls: seq<Poll>, playing: bool, exportOk: bool, asr: Chunk -> string)
      returns (out: RunOutcome)
      requires Valid() && hasQuestions && i < |scripts| && currentQuestionIndex == Some(i)
      modifies this`audioBuffer, this`wavFiles, this`currentQuestionIndex, questions[i]
      ensures Valid()
      ensures Recorded(PathOf(i), polls, playing, exportOk, old(audioBuffer), old(wavFiles), audioBuffer, wavFiles)
      ensures Moved(i, nextPressed, asr, old(Transcripts())) && Shown(i, out)
      ensures (forall k :: 0 <= k < |scripts| ==> ',' in scripts[k] || '.' in scripts[k]) ==>
        out.Results? ==> out.score == 0
    {
      Recording(PathOf(i), polls, playing, exportOk);
      assert Valid() && Transcripts() == old(Transcripts());
      out := Advance(i, nextPressed, asr);
    }

    /** After the recording: the Next button, then the results screen or the question. */
    method Advance(i: nat, nextPressed: bool, asr: Chunk -> string) returns (out: RunOutcome)
      requires Valid() && hasQuestions && i < |scripts| && currentQuestionIndex == Some(i)
      modifies this`currentQuestionIndex, questions[i]
      ensures Valid()
      ensures Moved(i, nextPressed, asr, old(Transcripts())) && Shown(i, out)
      ensures (forall k :: 0 <= k < |scripts| ==> ',' in scripts[k] || '.' in scripts[k]) ==>
        out.Results? ==> out.score == 0
    {
      MaybeNext(i, nextPressed, asr);
      out := ResultsOrPrompt(i);
    }

    /** The results appear exactly when Next passes the last script, and leave the cursor at the script count. */
    lemma ResultsPassLast(i: nat, nextPressed: bool, asr: Chunk -> string, before: seq<string>, out: RunOutcome)
      requires i < |scripts| == |before| && Moved(i, nextPressed, asr, before) && Shown(i, out)
      ensures out.Results? <==> nextPressed && PathOf(i) in wavFiles && i + 1 == |scripts|
      ensures out.Results? ==> currentQuestionIndex == Some(|scripts|)
    {
    }

    /** One rerun of `main`. */
    method Run(nextPressed: bool, polls: seq<Poll>, playing: bool, exportOk: bool, asr: Chunk -> string)
      returns (out: RunOutcome)
      requires Valid()
      modifies this`currentQuestionIndex, this`hasQuestions, this`questions, this`audioBuffer, this`wavFiles, questions
      ensures Valid() && hasQuestions
      ensures old(hasQuestions) ==> questions == old(questions)
      ensures forall j :: 0 <= j < |questions| ==> questions[j] in old(questions) || fresh(questions[j])
      // the cursor is created at 0 and never decreases; a cursor past the last script fails on `scripts[i]`
      ensures var i := if old(currentQuestionIndex).Some? then old(currentQuestionIndex).value else 0;
        var before := if old(hasQuestions) then old(Transcripts()) else seq(|scripts|, _ => []);
        && (i >= |scripts| ==>
              && out == IndexError && currentQuestionIndex == Some(i)
              && audioBuffer == old(audioBuffer) && wavFiles == old(wavFiles)
              && Transcripts() == before)
        && (i < |scripts| ==>
              && Recorded(PathOf(i), polls, playing, exportOk, old(audioBuffer), old(wavFiles), audioBuffer, wavFiles)
              && Moved(i, nextPressed, asr, before) && Shown(i, out))
      // with scripts that all hold punctuation, no run ever scores
      ensures (forall k :: 0 <= k < |scripts| ==> ',' in scripts[k] || '.' in scripts[k]) ==>
        out.Results? ==> out.score == 0
    {
      ghost var initial := if hasQuestions then Transcripts() else seq(|scripts|, _ => []);
      Initialize();
      assert Transcripts() == initial;
      var i := currentQuestionIndex.value;
      if i >= |scripts| {
        return IndexError;
      }
      out := Step(i, nextPressed, polls, playing, exportOk, asr);
    }
  }

  /**
    Two consecutive reruns: when the first shows the results screen, the
    cursor equals the number of scripts and the second fails on
    `scripts[current_question_index]`, whatever its own inputs.
   */
  method ResultsThenIndexError(s: Session, polls: seq<Poll>, playing: bool, exportOk: bool, asr: Chunk -> string,
                               nextPressed2: bool, polls2: seq<Poll>, playing2: bool, exportOk2: bool)
    returns (first: RunOutcome, second: RunOutcome)
    requires s.Valid()
    modifies s, s.questions
    ensures first.Results? ==> second == IndexError
  {
    ghost var i := if s.currentQuestionIndex.Some? then s.currentQuestionIndex.value else 0;
    ghost var before := if s.hasQuestions then s.Transcripts() else seq(|s.scripts|, _ => []);
    first := s.Run(true, polls, playing, exportOk, asr);
    if first.Results? {
      s.ResultsPassLast(i, true, asr, before, first);
    }
    second := s.Run(nextPressed2, polls2, playing2, exportOk2, asr);
  }

  /** With the built-in scripts, the results screen always shows a score of 0. */
  method BuiltinScoreIsZero(s: Session, nextPressed: bool, polls: seq<Poll>, playing: bool, exportOk: bool, asr: Chunk -> string)
    returns (out: RunOutcome)
    requires s.Valid() && s.scripts == Quiz.BUILTIN_SCRIPTS
    modifies s, s.questions
    ensures out.Results? ==> out.score == 0
  {
    Quiz.BuiltinScriptsEndWithFullStop();
    assert forall k :: 0 <= k < |s.scripts| ==> '.' in s.scripts[k] by {
      forall k | 0 <= k < |s.scripts| ensures '.' in s.scripts[k] {
        assert s.scripts[k][|s.scripts[k]| - 1] == '.';
      }
    }
    out := s.Run(nextPressed, polls, playing, exportOk, asr);
  }

  /**
    The recordings directory keeps its files across sessions: a wav file left
    by an earlier session at script 0's name lets the very first Next move on,
    although nothing was recorded in this session.
   */
  method LeftoverFileAdvances(digest: string -> string, scripts: seq<string>, recordDir: string,
                              files: map<FilePath, Chunk>, asr: Chunk -> string)
    returns (s: Session, out: RunOutcome)
    requires |scripts| > 0 && FilePath(recordDir, OutputWavName(digest, scripts[0], 0)) in files
    ensures s.currentQuestionIndex == Some(1) && s.audioBuffer == [] && s.wavFiles == files
    ensures out.Results? <==> |scripts| == 1
    ensures out.Prompt? ==> out.script == scripts[0]
  {
    s := new Session(digest, scripts, recordDir, files);
    out := s.Run(true, [], false, true, asr);
  }
}
