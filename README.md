# Configuration cleaning and merging of web-mirai-panel, in Dafny

The panel keeps its settings in a `config` folder of TOML files: three partial
files (`ai.bak.cfg`, `chat.bak.cfg`, `other.bak.cfg`) that the web forms save,
and a global file `config.cfg` that is regenerated from them after every save.
Before a document is written, `clean_config` strips its empty fields. This
project models that core of `utils.py` and proves what it does:

- `values.dfy` (module `ConfigValues`): the value of a configuration key
  (`Str`, `Bool`, `Num`, `Null`, `Other`, `List`, `Dict`), Python's `str.strip()`
  and truthiness, and `empty_field`.
- `clean.dfy` (module `ConfigCleaning`): `clean_config` as a function on
  documents (`Clean`) and, in the source's own form, as a method on a mutable
  table (`Document`) that walks a copy of the items, assigns and deletes keys of
  the table it was given and returns that same table (`CleanConfig`, with the
  list comprehension as the loop `CleanList`). Properties: which keys survive
  and with what value, that no key is added, that the cleaned documents are
  exactly the fixed points, and that cleaning is idempotent.
- `files.dfy` (module `ConfigFiles`): the folder as a map from file name to
  document (a missing file reads as `{}`), the right-biased top-level merge of
  the partial files, and `save_conf` / `save_global_conf` as methods of a
  `ConfigStore` class whose `files` field they update. Properties: an unknown
  name writes nothing; a known name stores the cleaned document and cleans the
  caller's table in place; with regeneration the global file ends as the
  cleaned merge of ai, chat and other in that order, even when the name saved
  was `config.cfg` itself; after a save with regeneration, if the partial
  files were clean, the global file is exactly the union of the partial files.
- `scenarios.dfy` (module `ConfigScenarios`): worked examples on concrete
  documents: a cleaning, a saved partial file, a merge and a save with
  regeneration.

Three behaviours of the code are easy to misread, and the model follows the code:
a table that is empty, or becomes empty once cleaned, is deleted together with
its key (utils.py:24 cleans the copied value in place, and the `elif` at line 27
then tests that cleaned table); a key holding a list is never deleted, even
when the list is empty; and `clean_config` changes its argument's top-level
table in place rather than working on a copy, so `save_conf` cleans the
caller's `data` as a side effect.

## Model

| member | source | states |
|---|---|---|
| `ConfigValues.Strip` | utils.py:18 | `strip()` removes exactly the leading and trailing whitespace (Python's `isspace` set): the result is a slice of the input with non-space ends, and it is empty exactly when every character is whitespace |
| `ConfigValues.EmptyFieldCases` | utils.py:17-18 | `empty_field` holds of a string exactly when it is blank, never of a boolean (`False` included), and of any other value exactly when it is `None`, `0`, `[]` or `{}` |
| `ConfigCleaning.Clean` | utils.py:21-29 | cleaning never adds a key: the result's keys are a subset of the input's |
| `ConfigCleaning.CleanUpdate` | utils.py:22-28 | keys are processed independently: setting one input key sets or removes that key alone in the result |
| `ConfigCleaning.CleanScalar` | utils.py:27-28 | a key with a scalar value is removed exactly when `empty_field` holds, otherwise keeps its exact value; a boolean key always stays |
| `ConfigCleaning.CleanListValue` | utils.py:25-26 | a key with a list value is never removed, even when empty; its new list has the same length and order, tables cleaned, every other element (nested lists and empty strings included) unchanged |
| `ConfigCleaning.CleanDictValue` | utils.py:23-28 | a key with a table value holds the cleaned table and is removed exactly when that cleaned table is empty |
| `ConfigCleaning.CleanIsClean` | utils.py:21-29 | every result of cleaning is clean: no empty scalar or empty table under any key, at any depth, and clean tables inside lists |
| `ConfigCleaning.CleanFixed` | utils.py:21-29 | a clean document is left unchanged |
| `ConfigCleaning.CleanFixedIff` | utils.py:21-29 | the documents cleaning leaves unchanged are exactly the clean ones |
| `ConfigCleaning.CleanIdempotent` | utils.py:21-29 | cleaning twice is cleaning once |
| `ConfigCleaning.CleanConfig` | utils.py:21-29 | the method returns the very table it was given, and that table now holds the cleaned document |
| `ConfigCleaning.CleanList` | utils.py:26 | the loop builds exactly the cleaned list: tables cleaned, other elements kept, order kept |
| `ConfigFiles.MergeKeys` | utils.py:70 | a key is in the merge exactly when some document has it |
| `ConfigFiles.MergeLastWins` | utils.py:70 | a key takes its value from the last document that has it, with no deep merge of tables |
| `ConfigFiles.GlobalNotMerged` | utils.py:10-14 | the global file is never a merge source: what it held before has no effect on the regenerated result |
| `ConfigFiles.RegenerateWithoutParts` | utils.py:42-45 | with all three partial files missing, the global file regenerates as `{}` |
| `ConfigFiles.UnionIsClean` | utils.py:70 | the top-level union of two clean documents is clean |
| `ConfigFiles.MergeIsClean` | utils.py:70 | the merge of clean documents is clean |
| `ConfigFiles.GlobalIsUnionOfParts` | utils.py:60-70 | when the partial files are clean, cleaning their merge changes nothing, so the global file a regeneration writes is their plain right-biased union |
| `ConfigFiles.SaveKeepsGlobalUnion` | utils.py:57-72 | a save with regeneration keeps the partial files clean and leaves the global file equal to the merge of the partial files as they now are |
| `ConfigFiles.ReadAfterSave` | utils.py:40-63 | reading back after a save gives the cleaned document that was saved (unless it was `config.cfg` and regeneration overwrote it); after a save with regeneration both the saved file and `config.cfg` read as clean documents; every other file but `config.cfg` reads as before |
| `ConfigFiles.ConfigStore.SaveConf` | utils.py:48-63 | returns `config/<name>` always; an unknown name changes no file and does not touch `data`; a known name cleans `data` in place and stores it, and with `override` then regenerates the global file, preserving the clean-parts invariant and leaving the global file equal to the union of the parts |
| `ConfigFiles.ConfigStore.SaveGlobalConf` | utils.py:66-72 | saves the cleaned merge as `config.cfg` through one non-regenerating save and returns its path |
| `ConfigScenarios.CleanExample` | utils.py:21-29 | `{a="", b="  x  ", c=false, d={e="", f=1}, g=[{h=""}, "keep"]}` cleans to `{b="  x  ", c=false, d={f=1}, g=[{}, "keep"]}` |
| `ConfigScenarios.CleanSavedPart` | utils.py:27-28 | `{model="gpt", temperature=0}` cleans to `{model="gpt"}`: a zero is an empty field |
| `ConfigScenarios.MergeExample` | utils.py:70 | ai `{model=…}` then chat `{model=m}` with other missing merge to `{model=m}` |
| `ConfigScenarios.SaveExample` | utils.py:57-72 | saving ai as `{model="gpt", temperature=0}` with chat `{model="claude"}` leaves ai as `{model="gpt"}` and the global file as `{model="claude"}` |

## Left out

- `execute_command` (utils.py:32-37): spawns a shell process and streams its output; process I/O, nothing to state.
- `handle_upload` and `UPLOADS_FOLDER` (utils.py:7, 75-78): directory creation and a call into the web framework's upload object.
- TOML parsing and writing (`toml.load`, `toml.dump`): a foreign library. A file holds its document as loaded, and writing then reading a cleaned document is taken to give it back unchanged; parse errors, `None` values the writer would skip, and I/O failures of `open` are not modelled.
- Floating-point numbers: numbers are integers (`0.0` would be falsy like `0`); dates, times and other exotic scalars are the opaque truthy `Other`.
- Sets: a set value becomes a list in an order Python does not fix, so sets are not modelled. A tuple held under a key is modelled as a list, which is what `clean_config` turns it into; a tuple inside a list is kept as it is, and is modelled as a list too, which the cleaning passes through unchanged either way.
- Key order: documents are maps, so the insertion order of Python dicts (and of the written TOML) is not modelled.
- ConfigFiles.ConfigPath: does not model `os.path.join` for an absolute file name, where the folder is dropped.
- ConfigFiles.ConfigStore.SaveConf: `override` is a boolean; the source's `override is True` would also skip regeneration for a truthy non-boolean such as `1`.
- Aliasing below the top level: nested tables and lists are values. In the source they are fresh copies from `deepcopy`, so only the top-level table is shared with the caller, and that sharing is modelled.
- Concurrent writers and `os.path.isfile` on something that is not a regular file.
