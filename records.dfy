/**
  The pronunciation recorder's record store (`Record`, `RecordStrage`): one
  entry per recorded prompt, keyed by its wav file name, plus the manifest and
  the list of prompts still to be recorded that the download step exports.
 */
module Records {

  import opened Wrappers
  import opened Identity
  import Manuscripts

  /** One recorded prompt: its position in the prompt list, its text and the wav directory. */
  datatype Record = Record(manuscriptIndex: nat, text: string, wavDirPath: string) {

    function FileId(digest: string -> string): string {
      Identity.FileId(digest, text, manuscriptIndex)
    }

    function OutputWavName(digest: string -> string): string {
      Identity.OutputWavName(digest, text, manuscriptIndex)
    }

    function WavFilePath(digest: string -> string): FilePath {
      FilePath(wavDirPath, OutputWavName(digest))
    }

    /** The manifest entry `{"text": ..., "file_name": ...}`. */
    function RecordInfo(digest: string -> string): (info: map<string, string>)
      ensures info.Keys == {"text", "file_name"}
      ensures info["text"] == text
      ensures var name := info["file_name"];
        |name| >= 4 && name[|name| - 4..] == ".wav" && StripWav(name) == FileId(digest)
    {
      WavNameRoundTrip(FileId(digest));
      map["text" := text, "file_name" := OutputWavName(digest)]
    }
  }

  /** The manuscript positions of the stored records. */
  function RecordedIndexes(id2record: map<string, Record>): set<nat> {
    set k | k in id2record :: id2record[k].manuscriptIndex
  }

  /** The prompts whose position is not recorded, in their original order, duplicates kept. */
  function Unrecorded(texts: seq<string>, recorded: set<nat>): seq<string>
    decreases |texts|
  {
    if texts == [] then []
    else
      var n := |texts| - 1;
      Unrecorded(texts[..n], recorded) + (if n in recorded then [] else [texts[n]])
  }

  /** The positions `0 .. n-1`. */
  function Below(n: nat): (s: set<nat>)
    ensures |s| == n
    ensures forall i: nat :: i in s <==> i < n
  {
    if n == 0 then {} else Below(n - 1) + {n - 1}
  }

  /** One unrecorded line per prompt position that no record claims. */
  lemma {:induction false} UnrecordedCount(texts: seq<string>, recorded: set<nat>)
    ensures |Unrecorded(texts, recorded)| + |recorded * Below(|texts|)| == |texts|
    decreases |texts|
  {
    if texts != [] {
      var n := |texts| - 1;
      UnrecordedCount(texts[..n], recorded);
      var before := recorded * Below(n);
      assert Below(n + 1) == Below(n) + {n};
      assert recorded * Below(n + 1) == before + (recorded * {n});
      assert n !in before;
      if n in recorded {
        assert recorded * {n} == {n};
      } else {
        assert recorded * {n} == {};
      }
    }
  }

  /** Every element of the list is a prompt at an unrecorded position. */
  lemma {:induction false} UnrecordedMembers(texts: seq<string>, recorded: set<nat>)
    ensures forall t :: t in Unrecorded(texts, recorded) ==>
      exists i :: 0 <= i < |texts| && i !in recorded && texts[i] == t
    ensures forall i :: 0 <= i < |texts| && i !in recorded ==> texts[i] in Unrecorded(texts, recorded)
    decreases |texts|
  {
    if texts != [] {
      var n := |texts| - 1;
      UnrecordedMembers(texts[..n], recorded);
      forall t | t in Unrecorded(texts, recorded)
        ensures exists i :: 0 <= i < |texts| && i !in recorded && texts[i] == t
      {
        if t in Unrecorded(texts[..n], recorded) {
          var i :| 0 <= i < n && i !in recorded && texts[..n][i] == t;
          assert texts[i] == t;
        }
      }
    }
  }

  /** The unrecorded list is empty exactly when every prompt position is recorded. */
  lemma UnrecordedEmptyIffAllRecorded(texts: seq<string>, recorded: set<nat>)
    ensures Unrecorded(texts, recorded) == [] <==> Below(|texts|) <= recorded
  {
    UnrecordedCount(texts, recorded);
    var both := recorded * Below(|texts|);
    if Below(|texts|) <= recorded {
      assert both == Below(|texts|);
    } else {
      assert both < Below(|texts|);
    }
  }

  /** The contents of the unrecorded-texts file: one prompt per line. */
  function Lines(texts: seq<string>): string
    decreases |texts|
  {
    if texts == [] then [] else Lines(texts[..|texts| - 1]) + texts[|texts| - 1] + "\n"
  }

  lemma {:induction false} LinesIsJoin(texts: seq<string>)
    ensures Lines(texts) == Manuscripts.Join(texts + [[]])
    decreases |texts|
  {
    if texts != [] {
      var n := |texts| - 1;
      LinesIsJoin(texts[..n]);
      JoinSnoc(texts[..n], texts[n]);
      assert texts[..n] + [texts[n]] == texts;
    }
  }

  lemma {:induction false} JoinSnoc(init: seq<string>, last: string)
    ensures Manuscripts.Join(init + [last] + [[]]) == Manuscripts.Join(init + [[]]) + last + "\n"
    decreases |init|
  {
    if init == [] {
      assert init + [last] + [[]] == [last, []];
      assert init + [[]] == [[]];
      assert Manuscripts.Join([last, []]) == last + "\n" + Manuscripts.Join([[]]);
    } else {
      JoinSnoc(init[1..], last);
      assert (init + [last] + [[]])[1..] == init[1..] + [last] + [[]];
      assert (init + [[]])[1..] == init[1..] + [[]];
    }
  }

  /** Reading the unrecorded-texts file back as a prompt list gives the same prompts. */
  lemma LinesReadBack(texts: seq<string>)
    requires forall i :: 0 <= i < |texts| ==> texts[i] != [] && Manuscripts.IsLine(texts[i])
    ensures Manuscripts.FromText(Lines(texts)) == texts
  {
    LinesIsJoin(texts);
    var parts := texts + [[]];
    assert forall i :: 0 <= i < |parts| ==> Manuscripts.IsLine(parts[i]);
    Manuscripts.JoinThenSplit(parts);
    Manuscripts.NonEmptyDistributes(texts, [[]]);
    Manuscripts.NonEmptyKeepsNonEmpty(texts);
    assert Manuscripts.NonEmpty([[]]) == [];
  }

  /** `f.write(text + "\n")` for each text in turn. */
  method WriteLines(texts: seq<string>) returns (content: string)
    ensures content == Lines(texts)
  {
    content := [];
    for i := 0 to |texts|
      invariant content == Lines(texts[..i])
    {
      assert texts[..i + 1][..i] == texts[..i];
      content := content + texts[i] + "\n";
    }
    assert texts[..|texts|] == texts;
  }

  /**
    The store's invariant: `keys` lists the map's keys once each, in insertion
    order, and every record is stored under its own wav file name.
   */
  ghost predicate Indexed(keys: seq<string>, id2record: map<string, Record>, digest: string -> string) {
    && Distinct(keys)
    && (forall k :: k in id2record <==> k in keys)
    && (forall k :: k in id2record ==> k == id2record[k].OutputWavName(digest))
  }

  /** Storing a record under its own name keeps the invariant, appending the name only when it is new. */
  lemma IndexedInsert(keys: seq<string>, id2record: map<string, Record>, digest: string -> string, record: Record)
    requires Indexed(keys, id2record, digest)
    ensures var name := record.OutputWavName(digest);
      Indexed(if name in id2record then keys else keys + [name], id2record[name := record], digest)
  {
    var name := record.OutputWavName(digest);
    if name !in id2record {
      DistinctSnoc(keys, name);
    }
  }

  /**
    `RecordStrage`. The dict `id2record` keeps Python's insertion order, which
    the manifest follows; `keys` holds that order.
   */
  class RecordStore {
    const digest: string -> string
    var allManuscripts: seq<string>
    var keys: seq<string>
    var id2record: map<string, Record>

    ghost predicate Valid()
      reads this
    {
      Indexed(keys, id2record, digest)
    }

    constructor (digest: string -> string)
      ensures this.digest == digest
      ensures allManuscripts == [] && keys == [] && id2record == map[]
      ensures Valid()
    {
      this.digest := digest;
      allManuscripts := [];
      keys := [];
      id2record := map[];
    }

    /** `num_wav_files`: one wav file per distinct key. */
    function NumWavFiles(): (n: nat)
      reads this
      requires Valid()
      ensures n == |keys|
    {
      assert id2record.Keys == set k | k in keys;
      DistinctCardinality(keys);
      |id2record|
    }

    /** `id2record[record.output_wav_name] = record`: a re-recording replaces, never duplicates. */
    method Register(record: Record)
      requires Valid()
      modifies this
      ensures Valid()
      ensures id2record == old(id2record)[record.OutputWavName(digest) := record]
      ensures keys == if record.OutputWavName(digest) in old(id2record) then old(keys)
                      else old(keys) + [record.OutputWavName(digest)]
      ensures allManuscripts == old(allManuscripts)
    {
      var name := record.OutputWavName(digest);
      IndexedInsert(keys, id2record, digest, record);
      keys := if name in id2record then keys else keys + [name];
      id2record := id2record[name := record];
    }

    /** The manifest written by `export_record_info_as_json`, in dict order. */
    function RecordInfos(): (infos: seq<map<string, string>>)
      reads this
      requires Valid()
      ensures |infos| == NumWavFiles()
      ensures forall i :: 0 <= i < |infos| ==> keys[i] in id2record && infos[i] == id2record[keys[i]].RecordInfo(digest)
    {
      Manifest(keys, id2record, digest)
    }

    /** The loop of `export_unrecorded_texts_as_json` collecting `results`. */
    method UnrecordedTexts() returns (results: seq<string>)
      ensures results == Unrecorded(allManuscripts, RecordedIndexes(id2record))
    {
      var recorded := RecordedIndexes(id2record);
      results := [];
      for i := 0 to |allManuscripts|
        invariant results == Unrecorded(allManuscripts[..i], recorded)
      {
        assert allManuscripts[..i + 1][..i] == allManuscripts[..i];
        if i !in recorded {
          results := results + [allManuscripts[i]];
        }
      }
      assert allManuscripts[..|allManuscripts|] == allManuscripts;
    }

    /**
      `export_unrecorded_texts_as_json`: the file's contents afterwards, `None`
      when the file is absent (any earlier file is deleted first).
     */
    method ExportUnrecordedTexts() returns (file: Option<string>)
      ensures var pending := Unrecorded(allManuscripts, RecordedIndexes(id2record));
        && (file == None <==> pending == [])
        && (file.Some? ==> file.value == Lines(pending))
    {
      var results := UnrecordedTexts();
      if results != [] {
        var content := WriteLines(results);
        file := Some(content);
      } else {
        file := None;
      }
    }
  }

  /** The manifest entries of the records listed in `keys`, in that order. */
  function Manifest(keys: seq<string>, id2record: map<string, Record>, digest: string -> string): (infos: seq<map<string, string>>)
    requires forall i :: 0 <= i < |keys| ==> keys[i] in id2record
    ensures |infos| == |keys|
    ensures forall i :: 0 <= i < |infos| ==> infos[i] == id2record[keys[i]].RecordInfo(digest)
  {
    seq(|keys|, i requires 0 <= i < |keys| && keys[i] in id2record => id2record[keys[i]].RecordInfo(digest))
  }

  /** Each manifest entry names the wav file its key stands for. */
  lemma ManifestFileNames(keys: seq<string>, id2record: map<string, Record>, digest: string -> string)
    requires Indexed(keys, id2record, digest)
    ensures var infos := Manifest(keys, id2record, digest);
      forall i :: 0 <= i < |infos| ==> infos[i]["file_name"] == keys[i]
  {
    var infos := Manifest(keys, id2record, digest);
    forall i | 0 <= i < |infos|
      ensures infos[i]["file_name"] == keys[i]
    {
      assert keys[i] in id2record;
    }
  }

  /** Each stored record has exactly one manifest entry, naming its own wav file. */
  lemma ManifestListsEachRecordOnce(keys: seq<string>, id2record: map<string, Record>, digest: string -> string)
    requires Indexed(keys, id2record, digest)
    ensures var infos := Manifest(keys, id2record, digest);
      && (forall i, j :: 0 <= i < j < |infos| ==> infos[i]["file_name"] != infos[j]["file_name"])
      && (forall k :: k in id2record <==> exists i :: 0 <= i < |infos| && infos[i]["file_name"] == k)
  {
    ManifestFileNames(keys, id2record, digest);
  }
}
