/**
  The faster-whisper quiz (`faster-whisper-english.py`). Against the whisper
  quiz it differs in four ways that the model keeps:
  the cursor is reset to 0 at the start of every rerun; the recording step
  transcribes the finished wav file at once and only shows the text; the
  transcript is the model's segment texts joined as they are, without
  `format_string`; and Next never dispatches a transcription, so every
  question keeps its empty transcript. The speech model is an opaque
  function from a wav file's audio to its segments.
 */
module FasterWhisper {

  import opened Wrappers
  import opened Identity
  import opened Capture
  import Quiz

  /** One segment reported by the model: its time span in seconds and its text. */
  datatype Segment = Segment(start: real, end: real, text: string)

  /** The segment texts joined in order. */
  function SegmentText(segments: seq<Segment>): string
    decreases |segments|
  {
    if segments == [] then []
    else SegmentText(segments[..|segments| - 1]) + segments[|segments| - 1].text
  }

  /** Joining distributes over consecutive runs of segments. */
  lemma {:induction false} SegmentTextAppend(a: seq<Segment>, b: seq<Segment>)
    ensures SegmentText(a + b) == SegmentText(a) + SegmentText(b)
    decreases |b|
  {
    if b != [] {
      var n := |b| - 1;
      assert (a + b)[..|a + b| - 1] == a + b[..n];
      SegmentTextAppend(a, b[..n]);
    } else {
      assert a + b == a;
    }
  }

  /** No segment text is altered: a full stop or comma the model reports reaches the transcript. */
  lemma {:induction false} PunctuationSurvives(segments: seq<Segment>, k: nat, c: char)
    requires k < |segments| && c in segments[k].text
    ensures c in SegmentText(segments)
    decreases |segments|
  {
    var n := |segments| - 1;
    if k < n {
      PunctuationSurvives(segments[..n], k, c);
    }
  }

  /** `transcribe`: the loop that appends each segment's text to the transcript. */
  method Transcribe(model: Chunk -> seq<Segment>, audio: Chunk) returns (text: string)
    ensures text == SegmentText(model(audio))
    ensures model(audio) == [] ==> text == []
  {
    var segments := model(audio);
    text := "";
    for k := 0 to |segments|
      invariant text == SegmentText(segments[..k])
    {
      assert segments[..k + 1][..k] == segments[..k];
      text := text + segments[k].text;
    }
    assert segments[..|segments|] == segments;
  }

  /**
    `async_transcribe`: writes the transcript of the question's own wav file
    into that question only. Without the file the model raises and the
    transcript stays as it was.
   */
  method AsyncTranscribe(question: Quiz.Question, digest: string -> string, model: Chunk -> seq<Segment>,
                         wavFiles: map<FilePath, Chunk>)
    modifies question
    ensures var path := question.WavFilePath(digest);
      question.transcript == if path in wavFiles then SegmentText(model(wavFiles[path])) else old(question.transcript)
  {
    var path := question.WavFilePath(digest);
    if path in wavFiles {
      var transcript := Transcribe(model, wavFiles[path]);
      question.transcript := transcript;
    }
  }

  /** Why a rerun stopped with an exception. */
  datatype Crash =
    | IndexError     // `scripts[0]` of an empty script list
    | FileNotFound   // the finished recording was not written and no earlier file exists

  datatype RunOutcome =
    | Crashed(error: Crash)
    | Prompt(script: string, heard: Option<string>)                              // the question shown this run
    | Results(heard: Option<string>, score: nat, views: seq<Quiz.ResultView>)  // the results screen below it

  class Session {
    const digest: string -> string
    const scripts: seq<string>
    const recordDir: string
    var currentQuestionIndex: nat
    var hasQuestions: bool
    var questions: seq<Quiz.Question>
    var audioBuffer: Chunk
    var wavFiles: map<FilePath, Chunk>

    /** The question list, once built, is the initial one: no transcript is ever written into it. */
    ghost predicate Valid()
      reads this, questions
    {
      && (!hasQuestions ==> questions == [])
      && (hasQuestions ==> Quiz.FreshList(questions, scripts, recordDir))
    }

    /**
      A session before its first run. The recordings directory is only
      created when missing, so the wav files of earlier sessions are still there.
     */
    constructor (digest: string -> string, scripts: seq<string>, recordDir: string, files: map<FilePath, Chunk>)
      ensures Valid()
      ensures this.digest == digest && this.scripts == scripts && this.recordDir == recordDir
      ensures currentQuestionIndex == 0 && !hasQuestions && audioBuffer == [] && wavFiles == files
    {
      this.digest := digest;
      this.scripts := scripts;
      this.recordDir := recordDir;
      currentQuestionIndex := 0;
      hasQuestions := false;
      questions := [];
      audioBuffer := [];
      wavFiles := files;
    }

    /** The wav path of script `i`. */
    function PathOf(i: nat): FilePath
      requires i < |scripts|
    {
      FilePath(recordDir, OutputWavName(digest, scripts[i], i))
    }

    /**
      `WebRTCRecord.recording` of this quiz: capture; on finalize attempt the
      export, empty the buffer, then transcribe the file at the question's
      path, which raises when there is no such file.
     */
    method Recording(path: FilePath, polls: seq<Poll>, playing: bool, exportOk: bool, model: Chunk -> seq<Segment>)
      returns (heard: Option<string>, crashed: bool)
      modifies this`audioBuffer, this`wavFiles
      ensures var buffer := old(audioBuffer) + Captured(polls);
        var finalize := ShouldFinalize(playing, buffer);
        var files := if finalize && exportOk then old(wavFiles)[path := buffer] else old(wavFiles);
        && wavFiles == files
        && audioBuffer == (if finalize then [] else buffer)
        && (crashed <==> finalize && path !in files)
        && heard == (if finalize && path in files then Some(SegmentText(model(files[path]))) else None)
    {
      audioBuffer := Capture.Capture(audioBuffer, polls);
      heard := None;
      crashed := false;
      if !playing && |audioBuffer| > 0 {
        if exportOk {
          wavFiles := wavFiles[path := audioBuffer];
        }
        audioBuffer := [];
        if path !in wavFiles {
          crashed := true;
        } else {
          var text := Transcribe(model, wavFiles[path]);
          heard := Some(text);
        }
      }
    }

    /** The session keys `main` sets: the cursor back to 0, and the question list when absent. */
    method Initialize()
      requires Valid()
      modifies this`currentQuestionIndex, this`hasQuestions, this`questions
      ensures Valid() && hasQuestions && currentQuestionIndex == 0
      ensures old(hasQuestions) ==> questions == old(questions)
    {
      currentQuestionIndex := 0;
      if !hasQuestions {
        questions := Quiz.NewQuestions(scripts, recordDir);
        hasQuestions := true;
      }
    }

    /** The results screen: the score and the listing of every question. */
    method ShowResults(heard: Option<string>) returns (out: RunOutcome)
      requires Valid() && hasQuestions
      ensures out == Results(heard, Quiz.Matches(questions), Quiz.Views(questions))
      // nothing is ever transcribed: the score counts the empty scripts and every question is still processing
      ensures out.score == Quiz.EmptyScripts(scripts)
      ensures |out.views| == |scripts| && forall k :: 0 <= k < |out.views| ==> out.views[k].Processing?
    {
      var score := Quiz.Score(questions);
      Quiz.FreshListScore(questions, scripts, recordDir);
      out := Results(heard, score, Quiz.Views(questions));
    }

    /** A rerun with at least one script: show script 0, record, maybe advance, maybe show the results. */
    method Step(nextPressed: bool, polls: seq<Poll>, playing: bool, exportOk: bool, model: Chunk -> seq<Segment>)
      returns (out: RunOutcome)
      requires Valid() && hasQuestions && |scripts| > 0 && currentQuestionIndex == 0
      modifies this`currentQuestionIndex, this`audioBuffer, this`wavFiles
      ensures Valid() && currentQuestionIndex <= 1
      ensures var buffer := old(audioBuffer) + Captured(polls);
        var path := PathOf(0);
        var finalize := ShouldFinalize(playing, buffer);
        var files := if finalize && exportOk then old(wavFiles)[path := buffer] else old(wavFiles);
        && wavFiles == files
        && audioBuffer == (if finalize then [] else buffer)
        && (out.Crashed? <==> finalize && path !in files)
        && (out.Crashed? ==> out.error == FileNotFound && currentQuestionIndex == 0)
        && (!out.Crashed? ==>
              var heard := if finalize then Some(SegmentText(model(files[path]))) else None;
              var advance := nextPressed && path in files;
              && currentQuestionIndex == (if advance then 1 else 0)
              && (out.Results? <==> advance && |scripts| == 1)
              && (out.Prompt? ==> out == Prompt(scripts[0], heard))
              && (out.Results? ==> out.heard == heard && out.score == Quiz.EmptyScripts(scripts)))
    {
      var question := new Quiz.Question(currentQuestionIndex, scripts[currentQuestionIndex], [], recordDir);
      var path := question.WavFilePath(digest);
      assert path == PathOf(0);
      var heard, crashed := Recording(path, polls, playing, exportOk, model);
      if crashed {
        return Crashed(FileNotFound);
      }
      if nextPressed && path in wavFiles {
        currentQuestionIndex := currentQuestionIndex + 1;
      }
      if currentQuestionIndex >= |scripts| {
        out := ShowResults(heard);
      } else {
        out := Prompt(scripts[0], heard);
      }
    }

    /** One rerun of `main`. */
    method Run(nextPressed: bool, polls: seq<Poll>, playing: bool, exportOk: bool, model: Chunk -> seq<Segment>)
      returns (out: RunOutcome)
      requires Valid()
      modifies this`currentQuestionIndex, this`hasQuestions, this`questions, this`audioBuffer, this`wavFiles
      ensures Valid() && hasQuestions
      ensures old(hasQuestions) ==> questions == old(questions)
      // the cursor is reset every run, so it never passes 1
      ensures currentQuestionIndex <= 1
      ensures |scripts| == 0 ==>
        && out == Crashed(IndexError) && currentQuestionIndex == 0
        && audioBuffer == old(audioBuffer) && wavFiles == old(wavFiles)
      ensures |scripts| > 0 ==>
        var buffer := old(audioBuffer) + Captured(polls);
        var path := PathOf(0);
        var finalize := ShouldFinalize(playing, buffer);
        var files := if finalize && exportOk then old(wavFiles)[path := buffer] else old(wavFiles);
        && wavFiles == files
        && audioBuffer == (if finalize then [] else buffer)
        && (out.Crashed? <==> finalize && path !in files)
        && (out.Crashed? ==> out.error == FileNotFound && currentQuestionIndex == 0)
        && (!out.Crashed? ==>
              var heard := if finalize then Some(SegmentText(model(files[path]))) else None;
              var advance := nextPressed && path in files;
              && currentQuestionIndex == (if advance then 1 else 0)
              // the results screen needs the cursor past the last script: only a one-script quiz reaches it
              && (out.Results? <==> advance && |scripts| == 1)
              && (out.Prompt? ==> out == Prompt(scripts[0], heard))
              && (out.Results? ==> out.heard == heard && out.score == Quiz.EmptyScripts(scripts)))
    {
      Initialize();
      if |scripts| == 0 {
        return Crashed(IndexError);
      }
      out := Step(nextPressed, polls, playing, exportOk, model);
    }
  }

  /** With the built-in scripts the quiz never shows its results, whatever is recorded or pressed. */
  method BuiltinNeverShowsResults(s: Session, nextPressed: bool, polls: seq<Poll>, playing: bool, exportOk: bool,
                                  model: Chunk -> seq<Segment>)
    returns (out: RunOutcome)
    requires s.Valid() && s.scripts == Quiz.BUILTIN_SCRIPTS
    modifies s
    ensures !out.Results? && !(out == Crashed(IndexError))
  {
    out := s.Run(nextPressed, polls, playing, exportOk, model);
  }

  /**
    The recordings directory keeps its files across sessions: a wav file left
    by an earlier session at script 0's name lets the first Next move the
    cursor to 1, although nothing was recorded in this session.
   */
  method LeftoverFileAdvances(digest: string -> string, scripts: seq<string>, recordDir: string,
                              files: map<FilePath, Chunk>, model: Chunk -> seq<Segment>)
    returns (s: Session, out: RunOutcome)
    requires |scripts| > 0 && FilePath(recordDir, OutputWavName(digest, scripts[0], 0)) in files
    ensures s.currentQuestionIndex == 1 && s.audioBuffer == [] && s.wavFiles == files
    ensures out.Results? <==> |scripts| == 1
    ensures out.Prompt? ==> out == Prompt(scripts[0], None)
  {
    s := new Session(digest, scripts, recordDir, files);
    out := s.Run(true, [], false, true, model);
  }
}
