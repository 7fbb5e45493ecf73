/** The configuration folder: `read_conf`, `save_conf` and `save_global_conf`
    (utils.py:8-14, 40-72). The folder is a map from file name to the document the
    file holds; TOML text is not modelled, a file holds its document as loaded. */
module ConfigFiles {
  import opened ConfigValues
  import opened ConfigCleaning

  const ConfigFolder: string := "config"
  const GlobalConfig: string := "config.cfg"
  /** The partial files, in the order in which they are merged. */
  const PartConfigs: seq<string> := ["ai.bak.cfg", "chat.bak.cfg", "other.bak.cfg"]

  /** The contents of the configuration folder. */
  type Folder = map<string, Doc>

  /** `os.path.join(CONFIG_FOLDER, filename)` for a relative file name. */
  function ConfigPath(filename: string): (path: string)
    ensures |path| == |ConfigFolder| + 1 + |filename|
    ensures path[..|ConfigFolder|] == ConfigFolder && path[|ConfigFolder|] == '/'
    ensures path[|ConfigFolder| + 1..] == filename
  {
    ConfigFolder + "/" + filename
  }

  /** The names `save_conf` writes to (utils.py:58). */
  predicate Recognised(filename: string) {
    filename in PartConfigs || filename == GlobalConfig
  }

  /** `read_conf`: a missing file reads as the empty document. */
  function ReadConf(files: Folder, filename: string): (d: Doc)
    ensures filename in files ==> d == files[filename]
    ensures filename !in files ==> d == map[]
  {
    if filename in files then files[filename] else map[]
  }

  /** The documents of the named files, read in order. */
  function ReadAll(files: Folder, names: seq<string>): (docs: seq<Doc>)
    ensures |docs| == |names|
    ensures forall i :: 0 <= i < |names| ==> docs[i] == ReadConf(files, names[i])
  {
    seq(|names|, i requires 0 <= i < |names| => ReadConf(files, names[i]))
  }

  /** The comprehension of utils.py:70: the top-level entries of each document in
      turn, a later document overwriting the keys of an earlier one. Tables under a
      shared key are not merged: the later one replaces the earlier one whole. */
  function Merge(docs: seq<Doc>): Doc
    decreases |docs|
  {
    if docs == [] then map[] else Merge(docs[..|docs| - 1]) + docs[|docs| - 1]
  }

  /** A key is in the merge exactly when some document has it. */
  lemma {:induction false} MergeKeys(docs: seq<Doc>, k: string)
    ensures k in Merge(docs) <==> exists i :: 0 <= i < |docs| && k in docs[i]
    decreases |docs|
  {
    if docs != [] {
      var front := docs[..|docs| - 1];
      MergeKeys(front, k);
      if k in Merge(front) {
        var i :| 0 <= i < |front| && k in front[i];
        assert docs[i] == front[i];
      }
      if exists i :: 0 <= i < |docs| && k in docs[i] {
        var i :| 0 <= i < |docs| && k in docs[i];
        if i < |front| {
          assert front[i] == docs[i];
        }
      }
    }
  }

  /** A key takes its value from the last document that has it. */
  lemma {:induction false} MergeLastWins(docs: seq<Doc>, i: nat, k: string)
    requires i < |docs| && k in docs[i]
    requires forall j :: i < j < |docs| ==> k !in docs[j]
    ensures k in Merge(docs) && Merge(docs)[k] == docs[i][k]
    decreases |docs|
  {
    var front := docs[..|docs| - 1];
    if i < |docs| - 1 {
      forall j | i < j < |front|
        ensures k !in front[j]
      {
        assert front[j] == docs[j];
      }
      MergeLastWins(front, i, k);
    }
  }

  /** The document `save_global_conf` hands to `save_conf`: the merge of the three
      partial files, in the order ai, chat, other. */
  function MergedParts(files: Folder): Doc {
    Merge(ReadAll(files, PartConfigs))
  }

  /** The folder after `save_global_conf`: the global file holds the cleaned merge. */
  function Regenerate(files: Folder): (after: Folder)
    ensures after.Keys == files.Keys + {GlobalConfig}
    ensures after[GlobalConfig] == Clean(MergedParts(files))
    ensures forall name :: name in files && name != GlobalConfig ==> after[name] == files[name]
  {
    files[GlobalConfig := Clean(MergedParts(files))]
  }

  /** The global file is never a source of the merge: whatever it holds before a
      regeneration has no say in what it holds after. */
  lemma GlobalNotMerged(files: Folder, doc: Doc)
    ensures MergedParts(files[GlobalConfig := doc]) == MergedParts(files)
    ensures Regenerate(files[GlobalConfig := doc]) == Regenerate(files)
  {
    var before, after := ReadAll(files, PartConfigs), ReadAll(files[GlobalConfig := doc], PartConfigs);
    forall i | 0 <= i < |PartConfigs|
      ensures after[i] == before[i]
    {
      assert PartConfigs[i] != GlobalConfig;
    }
    assert after == before;
  }

  /** With every partial file missing, the global file regenerates as `{}`. */
  lemma RegenerateWithoutParts(files: Folder)
    requires forall name :: name in PartConfigs ==> name !in files
    ensures Regenerate(files)[GlobalConfig] == map[]
  {
    var docs := ReadAll(files, PartConfigs);
    forall k
      ensures k !in MergedParts(files)
    {
      MergeKeys(docs, k);
    }
    assert MergedParts(files) == map[];
  }

  /** Top-level union keeps a document clean. */
  lemma UnionIsClean(a: Doc, b: Doc)
    requires IsClean(a) && IsClean(b)
    ensures IsClean(a + b)
  {
  }

  /** The merge of clean documents is clean. */
  lemma {:induction false} MergeIsClean(docs: seq<Doc>)
    requires forall i :: 0 <= i < |docs| ==> IsClean(docs[i])
    ensures IsClean(Merge(docs))
    decreases |docs|
  {
    if docs != [] {
      MergeIsClean(docs[..|docs| - 1]);
      UnionIsClean(Merge(docs[..|docs| - 1]), docs[|docs| - 1]);
    }
  }

  /** Every partial file present holds a clean document, as every save leaves it. */
  predicate PartsClean(files: Folder) {
    forall name :: name in PartConfigs && name in files ==> IsClean(files[name])
  }

  /** When the partial files are clean, cleaning their merge changes nothing: the
      global file a regeneration writes is then exactly the union of the partial files,
      later ones winning. */
  lemma GlobalIsUnionOfParts(files: Folder)
    requires PartsClean(files)
    ensures Clean(MergedParts(files)) == MergedParts(files)
  {
    var docs := ReadAll(files, PartConfigs);
    forall i | 0 <= i < |docs|
      ensures IsClean(docs[i])
    {
      if PartConfigs[i] !in files {
        assert docs[i] == map[];
      }
    }
    MergeIsClean(docs);
    CleanFixed(MergedParts(files));
  }

  /** After a save with regeneration the partial files are still clean, and the global
      file is exactly the merge of the partial files as they now are (read with
      `MergeKeys` and `MergeLastWins`: a key is there exactly when some partial file
      has it, with the value of the last one, in the order ai, chat, other). */
  lemma SaveKeepsGlobalUnion(files: Folder, filename: string, data: Doc)
    requires PartsClean(files) && Recognised(filename)
    ensures var after := Regenerate(files[filename := Clean(data)]);
      PartsClean(after) && after[GlobalConfig] == MergedParts(after)
  {
    var written := files[filename := Clean(data)];
    var after := Regenerate(written);
    CleanIsClean(data);
    assert PartsClean(written);
    GlobalIsUnionOfParts(written);
    GlobalNotMerged(written, Clean(MergedParts(written)));
    assert after == written[GlobalConfig := Clean(MergedParts(written))];
  }

  /** Reading back after a save: the file saved reads as the cleaned document (unless it
      was `config.cfg` itself and a regeneration overwrote it), whatever is read from
      the folder afterwards is clean, and every other partial file reads as before. */
  lemma ReadAfterSave(files: Folder, filename: string, data: Doc)
    ensures var written := files[filename := Clean(data)];
      ReadConf(written, filename) == Clean(data) &&
      (filename != GlobalConfig ==> ReadConf(Regenerate(written), filename) == Clean(data)) &&
      IsClean(ReadConf(Regenerate(written), filename)) &&
      IsClean(ReadConf(Regenerate(written), GlobalConfig))
    ensures forall name :: name != filename && name != GlobalConfig ==>
      ReadConf(Regenerate(files[filename := Clean(data)]), name) == ReadConf(files, name)
  {
    var written := files[filename := Clean(data)];
    CleanIsClean(data);
    CleanIsClean(MergedParts(written));
  }

  /** The configuration folder, changed by the saves. */
  class ConfigStore {
    var files: Folder

    constructor (files: Folder)
      ensures this.files == files
    {
      this.files := files;
    }

    /** `save_conf(filename, data, override=True)`. `data` is cleaned in place before it is
        written, as `clean_config` does; an unrecognised name writes nothing, cleans
        nothing and regenerates nothing. The path is returned in every case. */
    method SaveConf(filename: string, data: Document, override: bool := true) returns (path: string)
      modifies this, data
      ensures path == ConfigPath(filename)
      ensures !Recognised(filename) ==> files == old(files) && data.entries == old(data.entries)
      ensures Recognised(filename) ==> data.entries == Clean(old(data.entries))
      ensures Recognised(filename) && !override ==>
        files == old(files)[filename := Clean(old(data.entries))]
      ensures Recognised(filename) && override ==>
        files == Regenerate(old(files)[filename := Clean(old(data.entries))])
      ensures PartsClean(old(files)) ==> PartsClean(files)
      ensures PartsClean(old(files)) && Recognised(filename) && override ==>
        files[GlobalConfig] == MergedParts(files)
      decreases if override then 2 else 0
    {
      path := ConfigPath(filename);
      if Recognised(filename) {
        ghost var data0 := data.entries;
        var cleaned := CleanConfig(data);
        files := files[filename := cleaned.entries];
        CleanIsClean(data0);
        if override {
          var _ := SaveGlobalConf();
          if PartsClean(old(files)) {
            SaveKeepsGlobalUnion(old(files), filename, data0);
          }
        }
      }
    }

    /** `save_global_conf()`: saves the merge of the partial files as the global file,
        without regenerating again. */
    method SaveGlobalConf() returns (path: string)
      modifies this
      ensures path == ConfigPath(GlobalConfig)
      ensures files == Regenerate(old(files))
      ensures PartsClean(old(files)) ==> PartsClean(files)
      decreases 1
    {
      var merged := new Document(MergedParts(files));
      path := SaveConf(GlobalConfig, merged, false);
    }
  }
}
