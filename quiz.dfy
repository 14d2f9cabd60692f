/**
  The question list shared by the two whisper quizzes (`Question`) and the
  results screen: a question's wav identity, its manifest entry, the score
  (exact matches between script and transcript) and the per-question listing.
 */
module Quiz {

  import opened Wrappers
  import opened Identity

  /**
    One quiz question. Only `transcript` is ever assigned after creation (by
    the transcription worker, through a shared reference), so the rest are
    constants.
   */
  class Question {
    const scriptIndex: nat
    const script: string
    var transcript: string
    const wavDirPath: string

    constructor (scriptIndex: nat, script: string, transcript: string, wavDirPath: string)
      ensures this.scriptIndex == scriptIndex && this.script == script
      ensures this.transcript == transcript && this.wavDirPath == wavDirPath
    {
      this.scriptIndex := scriptIndex;
      this.script := script;
      this.transcript := transcript;
      this.wavDirPath := wavDirPath;
    }

    function FileId(digest: string -> string): string {
      Identity.FileId(digest, script, scriptIndex)
    }

    function OutputWavName(digest: string -> string): string {
      Identity.OutputWavName(digest, script, scriptIndex)
    }

    function WavFilePath(digest: string -> string): FilePath {
      FilePath(wavDirPath, OutputWavName(digest))
    }

    /** The manifest entry `{"script": ..., "file_name": ...}`. */
    function RecordInfo(digest: string -> string): (info: map<string, string>)
      ensures info.Keys == {"script", "file_name"}
      ensures info["script"] == script
      ensures var name := info["file_name"];
        |name| >= 4 && name[|name| - 4..] == ".wav" && StripWav(name) == FileId(digest)
    {
      WavNameRoundTrip(FileId(digest));
      map["script" := script, "file_name" := OutputWavName(digest)]
    }
  }

  /** The list built on the first run: question `i` holds script `i` and no transcript. */
  ghost predicate FreshList(qs: seq<Question>, scripts: seq<string>, wavDirPath: string)
    reads qs
  {
    && |qs| == |scripts|
    && Distinct(qs)
    && forall i :: 0 <= i < |qs| ==>
         qs[i].scriptIndex == i && qs[i].script == scripts[i] && qs[i].transcript == [] && qs[i].wavDirPath == wavDirPath
  }

  /** `[Question(script_index=i, script=script, transcript="", ...) for i, script in enumerate(scripts)]` */
  method NewQuestions(scripts: seq<string>, wavDirPath: string) returns (qs: seq<Question>)
    ensures FreshList(qs, scripts, wavDirPath)
    ensures forall i :: 0 <= i < |qs| ==> fresh(qs[i])
  {
    qs := [];
    for i := 0 to |scripts|
      invariant FreshList(qs, scripts[..i], wavDirPath)
      invariant forall k :: 0 <= k < |qs| ==> fresh(qs[k])
    {
      var q := new Question(i, scripts[i], [], wavDirPath);
      qs := qs + [q];
    }
    assert scripts[..|scripts|] == scripts;
  }

  /** The transcripts of a question list, in order. */
  ghost function Transcripts(qs: seq<Question>): (ts: seq<string>)
    reads qs
    ensures |ts| == |qs| && forall i :: 0 <= i < |qs| ==> ts[i] == qs[i].transcript
    decreases |qs|
  {
    if qs == [] then [] else Transcripts(qs[..|qs| - 1]) + [qs[|qs| - 1].transcript]
  }

  /** A freshly built list has only empty transcripts. */
  lemma FreshTranscripts(qs: seq<Question>, scripts: seq<string>, wavDirPath: string)
    requires FreshList(qs, scripts, wavDirPath)
    ensures Transcripts(qs) == seq(|scripts|, _ => [])
  {
    var ts := Transcripts(qs);
    assert forall i :: 0 <= i < |ts| ==> ts[i] == [];
  }

  /** The number of questions whose transcript is exactly their script. */
  function Matches(qs: seq<Question>): (n: nat)
    reads qs
    ensures n <= |qs|
    decreases |qs|
  {
    if qs == [] then 0
    else
      var last := qs[|qs| - 1];
      Matches(qs[..|qs| - 1]) + if last.script == last.transcript then 1 else 0
  }

  /** The score loop of the results screen. */
  method Score(qs: seq<Question>) returns (score: nat)
    ensures score == Matches(qs)
    ensures score <= |qs|
  {
    score := 0;
    for i := 0 to |qs|
      invariant score == Matches(qs[..i])
    {
      assert qs[..i + 1][..i] == qs[..i];
      if qs[i].script == qs[i].transcript {
        score := score + 1;
      }
    }
    assert qs[..|qs|] == qs;
  }

  /** A full score exactly when every transcript matches its script. */
  lemma {:induction false} MatchesAll(qs: seq<Question>)
    ensures Matches(qs) == |qs| <==> forall i :: 0 <= i < |qs| ==> qs[i].script == qs[i].transcript
    decreases |qs|
  {
    if qs != [] {
      var init := qs[..|qs| - 1];
      MatchesAll(init);
      assert forall i :: 0 <= i < |init| ==> init[i] == qs[i];
    }
  }

  /** A zero score exactly when no transcript matches its script. */
  lemma {:induction false} MatchesNone(qs: seq<Question>)
    ensures Matches(qs) == 0 <==> forall i :: 0 <= i < |qs| ==> qs[i].script != qs[i].transcript
    decreases |qs|
  {
    if qs != [] {
      var init := qs[..|qs| - 1];
      MatchesNone(init);
      assert forall i :: 0 <= i < |init| ==> init[i] == qs[i];
    }
  }

  /** The number of empty scripts. */
  function EmptyScripts(scripts: seq<string>): (n: nat)
    ensures n <= |scripts|
    decreases |scripts|
  {
    if scripts == [] then 0
    else EmptyScripts(scripts[..|scripts| - 1]) + if scripts[|scripts| - 1] == [] then 1 else 0
  }

  /** While no transcript has been written, the score counts the empty scripts. */
  lemma {:induction false} FreshListScore(qs: seq<Question>, scripts: seq<string>, wavDirPath: string)
    requires FreshList(qs, scripts, wavDirPath)
    ensures Matches(qs) == EmptyScripts(scripts)
    decreases |qs|
  {
    if qs != [] {
      var n := |qs| - 1;
      assert FreshList(qs[..n], scripts[..n], wavDirPath);
      FreshListScore(qs[..n], scripts[..n], wavDirPath);
    }
  }

  /** How the results screen lists one question. */
  datatype ResultView =
    | Processing(scriptIndex: nat, script: string)
    | Transcribed(scriptIndex: nat, script: string, transcript: string)

  /** The listing of the results screen: a question without a transcript is still processing. */
  function Views(qs: seq<Question>): (views: seq<ResultView>)
    reads qs
    ensures |views| == |qs|
    ensures forall i :: 0 <= i < |qs| ==>
      views[i].scriptIndex == qs[i].scriptIndex && views[i].script == qs[i].script &&
      (views[i].Processing? <==> qs[i].transcript == []) &&
      (views[i].Transcribed? ==> views[i].transcript == qs[i].transcript)
    decreases |qs|
  {
    if qs == [] then []
    else
      var q := qs[|qs| - 1];
      var view := if q.transcript != [] then Transcribed(q.scriptIndex, q.script, q.transcript)
                  else Processing(q.scriptIndex, q.script);
      Views(qs[..|qs| - 1]) + [view]
  }

  /** The scripts both quizzes build into `main`. */
  const BUILTIN_SCRIPTS: seq<string> := [
    "The cat sat on the mat.",
    "I like to eat apples and bananas.",
    "My friend is very kind."
  ]

  lemma BuiltinScriptsEndWithFullStop()
    ensures forall k :: 0 <= k < |BUILTIN_SCRIPTS| ==>
      |BUILTIN_SCRIPTS[k]| > 0 && BUILTIN_SCRIPTS[k][|BUILTIN_SCRIPTS[k]| - 1] == '.'
  {
  }
}
