/** Worked examples of the cleaning and the merge, on concrete documents. */
module ConfigScenarios {
  import opened ConfigValues
  import opened ConfigCleaning
  import opened ConfigFiles

  // Each step below is one key of the example, kept apart so that the solver meets
  // one literal at a time.

  lemma BlankStringStep(v: Value)
    requires v == Str("")
    ensures !Keep(v)
  {
  }

  lemma PaddedStringStep(v: Value)
    requires v == Str("  x  ")
    ensures Keep(v) && CleanValue(v) == v
  {
  }

  lemma TableStep(v: Value)
    requires v == Dict(map["e" := Str(""), "f" := Num(1)])
    ensures Keep(v) && CleanValue(v) == Dict(map["f" := Num(1)])
  {
    var m := v.entries;
    CleanAt(m, "e");
    CleanAt(m, "f");
    assert Clean(m).Keys == {"f"};
  }

  lemma ListStep(v: Value)
    requires v == List([Dict(map["h" := Str("")]), Str("keep")])
    ensures Keep(v) && CleanValue(v) == List([Dict(map[]), Str("keep")])
  {
  }

  /** Cleaning `{a = "", b = "  x  ", c = false, d = {e = "", f = 1}, g = [{h = ""}, "keep"]}`
      drops `a` and `d.e`, keeps `c = false` and the padded string as it is, and keeps
      both elements of `g`, the first one as an empty table. The values are parameters
      so that the document is put together one key at a time. */
  lemma CleanExample(a: Value, b: Value, c: Value, d: Value, g: Value)
    requires a == Str("") && b == Str("  x  ") && c == Bool(false)
    requires d == Dict(map["e" := Str(""), "f" := Num(1)])
    requires g == List([Dict(map["h" := Str("")]), Str("keep")])
    ensures Clean(map["a" := a, "b" := b, "c" := c, "d" := d, "g" := g]) ==
      map["b" := b, "c" := c, "d" := Dict(map["f" := Num(1)]), "g" := List([Dict(map[]), Str("keep")])]
  {
    var d0: Doc := map[];
    assert Clean(d0) == map[];
    BlankStringStep(a);
    CleanUpdate(d0, "a", a);
    PaddedStringStep(b);
    CleanUpdate(d0["a" := a], "b", b);
    CleanUpdate(d0["a" := a]["b" := b], "c", c);
    TableStep(d);
    CleanUpdate(d0["a" := a]["b" := b]["c" := c], "d", d);
    ListStep(g);
    CleanUpdate(d0["a" := a]["b" := b]["c" := c]["d" := d], "g", g);
  }

  lemma WordStep(v: Value)
    requires v == Str("gpt") || v == Str("claude")
    ensures Keep(v) && CleanValue(v) == v
  {
  }

  lemma ZeroStep(v: Value)
    requires v == Num(0)
    ensures !Keep(v)
  {
  }

  lemma CleanSavedPart(gpt: Value, zero: Value)
    requires gpt == Str("gpt") && zero == Num(0)
    ensures Clean(map["model" := gpt, "temperature" := zero]) == map["model" := gpt]
  {
  }

  lemma MergeExample(files: Folder, ai: Doc, chat: Doc, model: Value)
    requires "ai.bak.cfg" in files && files["ai.bak.cfg"] == ai
    requires "chat.bak.cfg" in files && files["chat.bak.cfg"] == chat
    requires "other.bak.cfg" !in files
    requires ai.Keys == {"model"} && chat == map["model" := model]
    ensures MergedParts(files) == chat
  {
    var docs := ReadAll(files, PartConfigs);
    assert docs[0] == ai && docs[1] == chat && docs[2] == map[];
    MergeLastWins(docs, 1, "model");
    forall k
      ensures k in MergedParts(files) <==> k == "model"
    {
      MergeKeys(docs, k);
    }
  }

  /** Saving `ai.bak.cfg` as `{model = "gpt", temperature = 0}` while `chat.bak.cfg`
      holds `{model = "claude"}` and `other.bak.cfg` is missing leaves `{model = "gpt"}`
      in the partial file and `{model = "claude"}` in the global file: chat comes after
      ai, and a zero is an empty field. */
  lemma SaveExample(files: Folder, gpt: Value, zero: Value, claude: Value)
    requires gpt == Str("gpt") && zero == Num(0) && claude == Str("claude")
    requires "chat.bak.cfg" in files && files["chat.bak.cfg"] == map["model" := claude]
    requires "other.bak.cfg" !in files
    ensures
      var after := Regenerate(files["ai.bak.cfg" := Clean(map["model" := gpt, "temperature" := zero])]);
      after["ai.bak.cfg"] == map["model" := gpt] &&
      after[GlobalConfig] == map["model" := claude]
  {
    CleanSavedPart(gpt, zero);
    var written := files["ai.bak.cfg" := map["model" := gpt]];
    MergeExample(written, map["model" := gpt], map["model" := claude], claude);
    var empty: Doc := map[];
    assert Clean(empty) == map[];
    WordStep(claude);
    CleanUpdate(empty, "model", claude);
  }
}
