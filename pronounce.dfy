/**
  The pronunciation recorder's session (`whisper_pronounce.py`): the prompt
  list read from the text area, the navigation counter, the record store, the
  audio buffer kept across reruns and the wav files on disk. A wav export is
  an input that succeeds or fails; the file written is the buffer itself.
 */
module Pronounce {

  import opened Wrappers
  import opened Identity
  import opened Capture
  import Records
  import Navigation
  import Manuscripts

  /** What the main window shows for the current prompt. */
  datatype Prepared =
    | Hidden                          // the text area is empty: nothing is shown
    | IndexError                      // `texts[counter.index]` is out of range
    | Ready(record: Records.Record)   // the record for the prompt under the cursor

  class Session {
    const wavDirPath: string
    const counter: Navigation.Counter
    const records: Records.RecordStore
    var audioBuffer: Chunk
    var wavFiles: map<FilePath, Chunk>

    ghost predicate Valid()
      reads this, counter, records
    {
      counter.Valid() && records.Valid()
    }

    /** `initialize_startup` and the first `WebRTCRecord()`: fresh counter and store, wiped wav directory, empty buffer. */
    constructor (digest: string -> string, wavDirPath: string)
      ensures Valid() && fresh(counter) && fresh(records)
      ensures this.wavDirPath == wavDirPath && records.digest == digest
      ensures counter.index == 0 && counter.total.None?
      ensures records.allManuscripts == [] && records.id2record == map[]
      ensures audioBuffer == [] && wavFiles == map[]
    {
      this.wavDirPath := wavDirPath;
      counter := new Navigation.Counter();
      records := new Records.RecordStore(digest);
      audioBuffer := [];
      wavFiles := map[];
    }

    /**
      The prompt handling of `main`: split the text area into prompts, store
      them, fix the total on the first non-empty text, and build the record
      for the prompt under the cursor.
     */
    method PrepareRecord(manuscripts: string) returns (p: Prepared)
      requires Valid()
      modifies counter, records
      ensures Valid()
      ensures records.keys == old(records.keys) && records.id2record == old(records.id2record)
      ensures counter.index == old(counter.index)
      ensures manuscripts == [] ==>
        p == Hidden && records.allManuscripts == old(records.allManuscripts) && counter.total == old(counter.total)
      ensures manuscripts != [] ==>
        var texts := Manuscripts.FromText(manuscripts);
        && records.allManuscripts == texts
        && counter.total == (if old(counter.total).None? then Some(|texts|) else old(counter.total))
        && (p.Ready? <==> counter.index < |texts|)
        && (p.Ready? ==> p.record == Records.Record(counter.index, texts[counter.index], wavDirPath))
      ensures p.IndexError? <==> manuscripts != [] && counter.index >= |Manuscripts.FromText(manuscripts)|
    {
      if manuscripts == [] {
        return Hidden;
      }
      var texts := Manuscripts.FromText(manuscripts);
      records.allManuscripts := texts;
      if counter.total.None? {
        counter.SetTotal(|texts|);
      }
      if counter.index < |texts| {
        p := Ready(Records.Record(counter.index, texts[counter.index], wavDirPath));
      } else {
        p := IndexError;
      }
    }

    /**
      The finalize step of `WebRTCRecord.recording`: register the record
      (before the write), attempt the wav export, and empty the buffer whether
      or not the export succeeded.
     */
    method Finalize(record: Records.Record, exportOk: bool)
      requires Valid()
      modifies this`audioBuffer, this`wavFiles, records
      ensures Valid()
      ensures records.allManuscripts == old(records.allManuscripts)
      ensures var name := record.OutputWavName(records.digest);
        && records.id2record == old(records.id2record)[name := record]
        && records.keys == (if name in old(records.id2record) then old(records.keys) else old(records.keys) + [name])
      ensures audioBuffer == []
      ensures wavFiles == if exportOk then old(wavFiles)[record.WavFilePath(records.digest) := old(audioBuffer)] else old(wavFiles)
    {
      var path := record.WavFilePath(records.digest);
      records.Register(record);
      ExportAndClear(path, exportOk);
    }

    /** `audio_buffer.export(str(record.wav_file_path), format="wav")` when it succeeds, then the buffer emptied whatever the outcome. */
    method ExportAndClear(path: FilePath, exportOk: bool)
      modifies this`audioBuffer, this`wavFiles
      ensures audioBuffer == []
      ensures wavFiles == if exportOk then old(wavFiles)[path := old(audioBuffer)] else old(wavFiles)
    {
      wavFiles := if exportOk then wavFiles[path := audioBuffer] else wavFiles;
      audioBuffer := [];
    }

    /**
      The store, buffer and wav files one capture for `record` leaves, from
      those it started with: once the stream has stopped with audio heard, the
      record is registered under its wav name, the buffer is emptied and the
      wav is written when the export succeeds; otherwise the heard audio stays
      in the buffer and nothing else changes.
     */
    ghost predicate Registered(record: Records.Record, polls: seq<Poll>, playing: bool, exportOk: bool,
                               buffer0: Chunk, files0: map<FilePath, Chunk>,
                               id2record0: map<string, Records.Record>, keys0: seq<string>)
      reads this, records
    {
      var heard := buffer0 + Captured(polls);
      var name := record.OutputWavName(records.digest);
      if ShouldFinalize(playing, heard) then
        && records.id2record == id2record0[name := record]
        && records.keys == (if name in id2record0 then keys0 else keys0 + [name])
        && audioBuffer == []
        && wavFiles == (if exportOk then files0[record.WavFilePath(records.digest) := heard] else files0)
      else
        && records.id2record == id2record0 && records.keys == keys0
        && audioBuffer == heard && wavFiles == files0
    }

    /**
      The prompt list and total the text area leaves, from those before: an
      empty text area changes neither; otherwise its prompts are stored, and
      the total is fixed by the first non-empty text only.
     */
    ghost predicate Listed(manuscripts: string, allManuscripts0: seq<string>, total0: Option<nat>)
      reads counter, records
    {
      if manuscripts == [] then
        records.allManuscripts == allManuscripts0 && counter.total == total0
      else
        var texts := Manuscripts.FromText(manuscripts);
        records.allManuscripts == texts && counter.total == (if total0.None? then Some(|texts|) else total0)
    }

    /**
      `WebRTCRecord.recording`: run the capture loop, then finalize once the
      stream has stopped with audio in the buffer. Otherwise the buffer is
      kept for the next rerun.
     */
    method Recording(record: Records.Record, polls: seq<Poll>, playing: bool, exportOk: bool)
      requires Valid()
      modifies this`audioBuffer, this`wavFiles, records
      ensures Valid()
      ensures records.allManuscripts == old(records.allManuscripts)
      ensures Registered(record, polls, playing, exportOk, old(audioBuffer), old(wavFiles), old(records.id2record), old(records.keys))
      ensures old(audioBuffer) == [] && NothingHeard(polls) ==>
        records.id2record == old(records.id2record) && audioBuffer == [] && wavFiles == old(wavFiles)
    {
      CapturedEmptyIffNothingHeard(polls);
      audioBuffer := Capture.Capture(audioBuffer, polls);
      if !playing && |audioBuffer| > 0 {
        Finalize(record, exportOk);
      }
    }

    /**
      One rerun of `main`: the Previous/Next buttons move the cursor first, then
      the prompt under the (moved) cursor is prepared and, when it exists, its
      recording is captured.
     */
    method Run(move: Option<Navigation.Move>, manuscripts: string, polls: seq<Poll>, playing: bool, exportOk: bool)
      returns (p: Prepared)
      requires Valid()
      modifies this`audioBuffer, this`wavFiles, counter, records
      ensures Valid()
      ensures counter.index == if move.Some? then Navigation.Step(old(counter.index), old(counter.total), move.value)
                               else old(counter.index)
      ensures Listed(manuscripts, old(records.allManuscripts), old(counter.total))
      ensures p.Ready? <==> manuscripts != [] && counter.index < |Manuscripts.FromText(manuscripts)|
      ensures p == Hidden <==> manuscripts == []
      ensures p.IndexError? <==> manuscripts != [] && counter.index >= |Manuscripts.FromText(manuscripts)|
      ensures p.Ready? ==>
        && p.record == Records.Record(counter.index, Manuscripts.FromText(manuscripts)[counter.index], wavDirPath)
        && Registered(p.record, polls, playing, exportOk, old(audioBuffer), old(wavFiles), old(records.id2record), old(records.keys))
      ensures !p.Ready? ==>
        && records.id2record == old(records.id2record) && records.keys == old(records.keys)
        && audioBuffer == old(audioBuffer) && wavFiles == old(wavFiles)
    {
      Navigate(move);
      p := Present(manuscripts, polls, playing, exportOk);
    }

    /** The Previous/Next buttons of the sidebar. */
    method Navigate(move: Option<Navigation.Move>)
      requires Valid()
      modifies counter
      ensures Valid()
      ensures counter.index == if move.Some? then Navigation.Step(old(counter.index), old(counter.total), move.value)
                               else old(counter.index)
      ensures counter.total == old(counter.total)
    {
      if move == Some(Navigation.Next) {
        counter.Next();
      } else if move == Some(Navigation.Previous) {
        counter.Previous();
      }
    }

    /** The main window: the prompt under the cursor and, when it exists, its recording. */
    method Present(manuscripts: string, polls: seq<Poll>, playing: bool, exportOk: bool) returns (p: Prepared)
      requires Valid()
      modifies this`audioBuffer, this`wavFiles, counter, records
      ensures Valid()
      ensures counter.index == old(counter.index)
      ensures Listed(manuscripts, old(records.allManuscripts), old(counter.total))
      ensures p.Ready? <==> manuscripts != [] && counter.index < |Manuscripts.FromText(manuscripts)|
      ensures p == Hidden <==> manuscripts == []
      ensures p.IndexError? <==> manuscripts != [] && counter.index >= |Manuscripts.FromText(manuscripts)|
      ensures p.Ready? ==>
        && p.record == Records.Record(counter.index, Manuscripts.FromText(manuscripts)[counter.index], wavDirPath)
        && Registered(p.record, polls, playing, exportOk, old(audioBuffer), old(wavFiles), old(records.id2record), old(records.keys))
      ensures !p.Ready? ==>
        && records.id2record == old(records.id2record) && records.keys == old(records.keys)
        && audioBuffer == old(audioBuffer) && wavFiles == old(wavFiles)
    {
      p := PrepareRecord(manuscripts);
      ghost var index := counter.index;
      if p.Ready? {
        Recording(p.record, polls, playing, exportOk);
      }
      assert counter.index == index;
    }

    /**
      `proceed_to_download`: the manifest, the unrecorded-texts file and the
      number of wav files, as the sidebar produces them. The archive is not
      modelled.
     */
    method ProceedToDownload() returns (manifest: seq<map<string, string>>, unrecorded: Option<string>, numWavFiles: nat)
      requires Valid()
      ensures manifest == records.RecordInfos() && |manifest| == numWavFiles
      ensures numWavFiles == |records.keys|
      // the unrecorded-texts file is absent exactly when every prompt position has a record
      ensures unrecorded == None <==>
        Records.Below(|records.allManuscripts|) <= Records.RecordedIndexes(records.id2record)
      ensures unrecorded.Some? ==>
        unrecorded.value == Records.Lines(Records.Unrecorded(records.allManuscripts, Records.RecordedIndexes(records.id2record)))
    {
      manifest := records.RecordInfos();
      unrecorded := records.ExportUnrecordedTexts();
      Records.UnrecordedEmptyIffAllRecorded(records.allManuscripts, Records.RecordedIndexes(records.id2record));
      numWavFiles := records.NumWavFiles();
    }
  }
}
