# ChromBERT dataset configuration, modelled in Dafny

This project models `DatasetConfig`, the record that configures ChromBERT's
fine-tuning datasets, together with the preset loader
`get_preset_dataset_config`. It proves properties of the model.

- A configuration is an object with 22 declared attributes and their defaults.
- `load` and `update` assign into it one key at a time and reject
  undeclared keys. They are not transactional: assignments made before the
  bad key stay in place.
- `validate` accepts four dataset kinds. It refuses a true `perturbation`
  when `perturbation_value` is `None`.
- `to_dict` returns the attributes in declaration order.
- `clone` rebuilds a configuration from that dict and applies overrides.
- `init_dataset` picks one of three dataset classes from the original
  object's `kind`.
- `init_dataloader` adds the batch size, shuffle flag and worker count.
- The preset loader reads a preset file and lays the caller's overrides over
  it. It moves relative `*_file` paths, other than `supervised_file`, under
  an absolute base directory, then builds a configuration from the result.

Files:

- `wrappers.dfy`: `Option`, `Result`, `Outcome`.
- `values.dfy`: attribute values, Python truthiness, and insertion-ordered
  key/value mappings with last-writer-wins lookup.
- `schema.dfy`: the declared fields, attribute names, `hasattr`, defaults,
  `setattr`, the dict view.
- `semantics.dfy`: validation, the update loop, construction, cloning,
  dispatch, and the dataloader parameters, all on values.
- `config.dfy`: the `DatasetConfig` class. Its methods update the attribute
  table in place and are proved against the value-level functions.
- `dicts.dfy`: the insertion-ordered Python dict the preset loader edits.
- `preset.dfy`: the preset loader, with the filesystem as a parameter.

Abstractions:

- The filesystem is a parameter, `Preset.Env`. It supplies `os.path.abspath`,
  `os.path.join`, `os.path.exists`, the packaged presets directory and its
  listing, and the parsed content of a preset file.
- Python `assert` statements are modelled as errors, which assumes
  assertions are enabled. The code has them at lines 210, 212 and 233.
- The four read-only properties are module constants in `Schema`:
  `VocabShift` = 5, `VocabLevels` = 5, `TokenIdPad` = 0, `PositionIdPad` = 0.
  None of them reads a field.
- `items` is `to_dict`, so `Schema.AsDict` models both. The object's
  `validate` is `Semantics.Validate` on its attribute table.
- The attribute values are immutable Dafny values. So the deep copy in
  `to_dict` is automatic, and changing a returned dict cannot change the
  object.

Line 231 tests `os.path.abspath(value) != value`, not `os.path.isabs(value)`.
So an absolute but unnormalised path such as `/data/../g.fa` is rewritten
too, and `os.path.join` then returns it unchanged. `Preset.IsRelativePath`
states line 231's test over the abstract `abspath`.

## Model

| member | source | states |
|---|---|---|
| `Values.LastValueIsLast` | chrombert/finetune/dataset/dataset_config.py:129-131 | assigning pairs in order leaves each key with the value of its last pair (last writer wins) |
| `Values.Truthy` | chrombert/finetune/dataset/dataset_config.py:114 | Python truthiness of `self.perturbation`: a value is false exactly when it is `None`, `False`, `0`, `""` or `[]`; used by `Semantics.Validate` |
| `Schema.FieldNamed` | chrombert/finetune/dataset/dataset_config.py:136-139 | `hasattr` on the declared attributes: a key that is found denotes the field of that name |
| `Schema.Default` | chrombert/finetune/dataset/dataset_config.py:51-86 | the value each attribute is first assigned in the constructor; the values are stated by `DefaultValues` |
| `Schema.Defaults` | chrombert/finetune/dataset/dataset_config.py:51-86 | the table of a fresh object holds every declared field, each with its `Default`; see `DefaultsWellFormed` |
| `Schema.AsDict` | chrombert/finetune/dataset/dataset_config.py:158-162 | `to_dict` and `items`: one pair per attribute in declaration order; see `AsDictOrder`, `AsDictContents` and `AsDictRoundTrip` |
| `Schema.NameDenotes` | chrombert/finetune/dataset/dataset_config.py:51-86 | every declared attribute is found under its own name |
| `Schema.Denotes` | chrombert/finetune/dataset/dataset_config.py:51-86 | a key denotes a field exactly when it is that field's name, so no two attributes share a name |
| `Schema.FieldOrderComplete` | chrombert/finetune/dataset/dataset_config.py:51-86 | the declaration order lists each of the 22 fields exactly once |
| `Schema.DefaultsWellFormed` | chrombert/finetune/dataset/dataset_config.py:51-86 | the constructor assigns every field, each its own default |
| `Schema.DefaultValues` | chrombert/finetune/dataset/dataset_config.py:53-86 | defaults: no kind, batch size 8, 20 workers, no shuffling, pinned memory, no perturbation, perturbation value 0, cache limit 3, flank window 0 |
| `Schema.Assign` | chrombert/finetune/dataset/dataset_config.py:121 | `setattr` on a declared name creates no attribute and removes none |
| `Schema.Overlay` | chrombert/finetune/dataset/dataset_config.py:120-121 | assigning a sequence of pairs keeps the attribute set unchanged |
| `Schema.OverlayAt` | chrombert/finetune/dataset/dataset_config.py:129-131 | after assigning pairs in order, a field holds the last value given to its name, or its old value if the pairs never name it |
| `Schema.AsDictOrder` | chrombert/finetune/dataset/dataset_config.py:158-159 | `to_dict` has exactly one entry per declared field, in declaration order, with no key twice |
| `Schema.AsDictContents` | chrombert/finetune/dataset/dataset_config.py:158-159 | every key of `to_dict` is declared, and each field's name carries that field's value |
| `Schema.OverlayAsDict` | chrombert/finetune/dataset/dataset_config.py:119-122 | loading the dict view of a record into any record makes it equal to the source, field for field |
| `Semantics.AcceptedKinds` | chrombert/finetune/dataset/dataset_config.py:110-111 | the accepted kinds are exactly BasicDataset, GeneralDataset, MultiFlankwindowDataset and PromptDataset |
| `Semantics.Validate` | chrombert/finetune/dataset/dataset_config.py:109-116 | passes iff the kind is accepted and a true `perturbation` does not meet a `None` value; the kind is checked first, otherwise the error is the missing perturbation value |
| `Semantics.PerturbationDatasetRejected` | chrombert/finetune/dataset/dataset_config.py:110-112 | the kind "PerturbationDataset" is refused |
| `Semantics.FirstUnknown` | chrombert/finetune/dataset/dataset_config.py:137-141 | the position of the first undeclared key: every key before it is declared, the key there is not |
| `Semantics.ApplyUpdates` | chrombert/finetune/dataset/dataset_config.py:136-142 | `update` keeps the attribute set, passes iff every key is declared, and a failure names an undeclared key |
| `Semantics.FirstUnknownExists` | chrombert/finetune/dataset/dataset_config.py:137-141 | an undeclared key is found exactly when not all keys are declared |
| `Semantics.FirstUnknownAt` | chrombert/finetune/dataset/dataset_config.py:137-141 | an undeclared key with only declared keys before it is the one `update` stops at |
| `Semantics.UpdateSetsNamedFields` | chrombert/finetune/dataset/dataset_config.py:136-142 | each field holds the last value given to it before the first undeclared key, or keeps its value |
| `Semantics.UpdateLeavesOthers` | chrombert/finetune/dataset/dataset_config.py:136-142 | fields not named in the call never change |
| `Semantics.UpdateAllKnown` | chrombert/finetune/dataset/dataset_config.py:136-142 | with only declared keys every pair is assigned and the call succeeds |
| `Semantics.UpdateStopsAtFirstUnknown` | chrombert/finetune/dataset/dataset_config.py:136-142 | at the first undeclared key the call fails naming it; the pairs before it stay assigned, the pairs after it are not applied |
| `Semantics.Seeded` | chrombert/finetune/dataset/dataset_config.py:51-89 | defaults then `load(config)` yield a table with every field |
| `Semantics.Finish` | chrombert/finetune/dataset/dataset_config.py:90-91 | after the overrides, only a table that passes `validate` is returned |
| `Semantics.Construct` | chrombert/finetune/dataset/dataset_config.py:88-91 | a constructed record always has every field and passes `validate` |
| `Semantics.ConstructOverrideWins` | chrombert/finetune/dataset/dataset_config.py:88-91 | a field holds the keyword override if any, else the seed's value, else its default; the result stands or falls with `validate` |
| `Semantics.ConstructFromKeywords` | chrombert/finetune/dataset/dataset_config.py:88-91 | with keyword arguments only, the record is the defaults overlaid with the arguments, if it validates |
| `Semantics.KeywordValue` | chrombert/finetune/dataset/dataset_config.py:90 | a field holds its last keyword override, or its default |
| `Semantics.ConstructRejectsUnknownKeys` | chrombert/finetune/dataset/dataset_config.py:88-91 | an undeclared key in the seed fails construction with the first such key; with a good seed or with no seed, an undeclared override fails it with the first such override (so `DatasetConfig(foo=1)` fails naming `foo`) |
| `Semantics.ConstructWithoutArguments` | chrombert/finetune/dataset/dataset_config.py:88-91 | `DatasetConfig()` fails, since the default kind `None` is not accepted |
| `Semantics.KeywordConstruction` | chrombert/finetune/dataset/dataset_config.py:109-116 | construction from keywords succeeds iff an accepted kind is given and a true `perturbation` is not paired with an explicit `None` value; so `perturbation=True` alone passes, through the default value 0 |
| `Semantics.KeywordConstructionDefaults` | chrombert/finetune/dataset/dataset_config.py:62-64 | overrides that leave the dataloader fields alone leave batch size 8, 20 workers and no shuffling |
| `Semantics.AsDictRoundTrip` | chrombert/finetune/dataset/dataset_config.py:158-159 | building a record from `to_dict` gives back the same table, and so the same dict, if the table validates; otherwise construction fails with the validation error |
| `Semantics.CloneSpec` | chrombert/finetune/dataset/dataset_config.py:164-167 | `clone`: rebuild from `to_dict` (validating the source), then `update`; a clone has every field; its values are stated by `CloneOverrides` and `CloneDoesNotRevalidate` |
| `Semantics.CloneOverrides` | chrombert/finetune/dataset/dataset_config.py:164-167 | a clone succeeds iff the source validates and all overrides are declared; it equals the source on every field not overridden and holds the last override on the others |
| `Semantics.CloneDoesNotRevalidate` | chrombert/finetune/dataset/dataset_config.py:164-167 | overrides applied after the copy are not validated: a valid record cloned with kind "PerturbationDataset" yields a clone that fails `validate` |
| `Semantics.Dispatch` | chrombert/finetune/dataset/dataset_config.py:175-185 | a kind dispatches to the class of that name; any other value raises an unsupported-kind error |
| `Semantics.DispatchByName` | chrombert/finetune/dataset/dataset_config.py:175-183 | each of the three classes is reached from its own name |
| `Semantics.DispatchVersusValidate` | chrombert/finetune/dataset/dataset_config.py:175-185 | every kind that dispatches is accepted by `validate`; among the accepted kinds, exactly "BasicDataset" does not dispatch |
| `Semantics.InitDatasetSpec` | chrombert/finetune/dataset/dataset_config.py:169-188 | `init_dataset`: clone, update with the overrides, dispatch on the original kind; a success names the class of the object's own kind and carries a complete table; see `InitDatasetUsesOwnKind` and `InitDatasetErrors` |
| `Semantics.InitDatasetUsesOwnKind` | chrombert/finetune/dataset/dataset_config.py:173-185 | `init_dataset` builds the class named by the object's own kind, from its clone with the overrides; an overridden kind does not change the class |
| `Semantics.InitDatasetErrors` | chrombert/finetune/dataset/dataset_config.py:173-185 | errors come in order: validation of the object, then the first undeclared override, then an unsupported kind |
| `Semantics.CloneOfNothing` | chrombert/finetune/dataset/dataset_config.py:173 | a clone without overrides is the object itself, if it validates |
| `Semantics.BasicDatasetUnsupported` | chrombert/finetune/dataset/dataset_config.py:184-185 | a valid "BasicDataset" configuration has no dataset class |
| `Semantics.DataloaderSpec` | chrombert/finetune/dataset/dataset_config.py:190-200 | `init_dataloader`: the class of the object's own kind with the batch size, shuffle flag and worker count of the updated clone; see `DataloaderParams` |
| `Semantics.DataloaderParams` | chrombert/finetune/dataset/dataset_config.py:190-199 | `init_dataloader` succeeds iff the object validates, every override is declared and its own kind names a class; it then takes the class from the object's kind, and the batch size, shuffle flag and worker count from their last overrides or else from the object |
| `Config.DatasetConfig.constructor` | chrombert/finetune/dataset/dataset_config.py:51-86 | a new object holds exactly the defaults |
| `Config.DatasetConfig.Update` | chrombert/finetune/dataset/dataset_config.py:136-142 | the in-place loop leaves the table and outcome that `ApplyUpdates` describes |
| `Config.DatasetConfig.Load` | chrombert/finetune/dataset/dataset_config.py:118-134 | no config: no change; a dict: the checked update loop; another object, even this one: every field becomes the source's |
| `Config.DatasetConfig.Seed` | chrombert/finetune/dataset/dataset_config.py:88-89 | a fresh object after defaults and `load` holds the table `Seeded` describes |
| `Config.DatasetConfig.New` | chrombert/finetune/dataset/dataset_config.py:88-91 | the constructor yields a fresh object holding exactly what `Construct` describes, or its error |
| `Config.DatasetConfig.Clone` | chrombert/finetune/dataset/dataset_config.py:164-167 | `clone` leaves the source unchanged and yields a fresh object as `CloneSpec` describes |
| `Config.DatasetConfig.InitDataset` | chrombert/finetune/dataset/dataset_config.py:169-188 | `init_dataset` leaves the object unchanged and yields the class and a fresh configuration as `InitDatasetSpec` describes |
| `Config.DatasetConfig.InitDataloader` | chrombert/finetune/dataset/dataset_config.py:190-200 | `init_dataloader` yields the dataset class and the batch size, shuffle flag and worker count that `DataloaderSpec` describes |
| `Dicts.Get` | chrombert/finetune/dataset/dataset_config.py:232-233 | a lookup finds a value exactly when the key is present |
| `Dicts.Set` | chrombert/finetune/dataset/dataset_config.py:232 | assignment adds the key if it was missing, and keeps every existing key in its position |
| `Dicts.Update` | chrombert/finetune/dataset/dataset_config.py:225 | `dict.update` yields the union of the keys, with the existing keys in their old positions |
| `Dicts.GetAfterSet` | chrombert/finetune/dataset/dataset_config.py:232 | after an assignment the key holds the new value and every other key its old one |
| `Dicts.GetAfterUpdate` | chrombert/finetune/dataset/dataset_config.py:225 | after `update` a key named by the overrides holds their last value for it; other keys keep theirs |
| `Dicts.SetDistinct` | chrombert/finetune/dataset/dataset_config.py:232 | assignment keeps the keys distinct |
| `Dicts.UpdateDistinct` | chrombert/finetune/dataset/dataset_config.py:224-225 | `update` keeps the keys distinct |
| `Preset.Stem` | chrombert/finetune/dataset/dataset_config.py:215 | `split(".")[0]` is the longest dot-free prefix of the name |
| `Preset.StemsMembership` | chrombert/finetune/dataset/dataset_config.py:214-217 | a preset name is offered exactly when some directory entry has it as its stem |
| `Preset.ResolvePresetFile` | chrombert/finetune/dataset/dataset_config.py:213-222 | an existing path is used as is; otherwise a packaged preset of that stem gives `<presets>/<name>.json`; otherwise the preset is unknown |
| `Preset.IsRelativePath` | chrombert/finetune/dataset/dataset_config.py:227-231 | the entries line 231 moves: a `*_file` key other than `supervised_file` with a string value that `abspath` changes; see `RewriteEntry` |
| `Preset.Retarget` | chrombert/finetune/dataset/dataset_config.py:230-232 | the entry after the loop: the key is kept, and only a path key's string value can change, to another string |
| `Preset.RewriteEntry` | chrombert/finetune/dataset/dataset_config.py:227-233 | a `*_file` entry other than `supervised_file` whose value `abspath` changes is moved under the base directory; any other entry, including a `None` value under a path key, is unchanged; under such a key, a value that is neither `None` nor a string, or a moved path that does not exist, fails |
| `Preset.RewriteAll` | chrombert/finetune/dataset/dataset_config.py:226-233 | a successful rewrite keeps the length and rewrites every entry as `RewriteEntry` describes |
| `Preset.RewriteAllSucceeds` | chrombert/finetune/dataset/dataset_config.py:226-233 | when every entry is accepted, the whole loop succeeds |
| `Preset.RewriteAllFailsAt` | chrombert/finetune/dataset/dataset_config.py:226-233 | the loop fails with the error of the first entry it rejects |
| `Preset.GetAfterRewrite` | chrombert/finetune/dataset/dataset_config.py:226-233 | the rewrite keeps every key, and a key's value becomes its retargeted value |
| `Preset.Merge` | chrombert/finetune/dataset/dataset_config.py:223-225 | the parsed preset updated with the overrides; its keys are distinct; the values are stated by `MergeContents` |
| `Preset.MergeContents` | chrombert/finetune/dataset/dataset_config.py:223-225 | overrides win over the preset, the preset's repeated keys keep their last value, and the merged keys are distinct |
| `Preset.PresetMapping` | chrombert/finetune/dataset/dataset_config.py:210-233 | the keyword arguments of line 235: a success implies `supervised_file` was given, the base directory exists and the preset resolves; the entries are stated by `PresetEntry` |
| `Preset.PresetConfig` | chrombert/finetune/dataset/dataset_config.py:210-236 | the whole call on values: a missing `supervised_file` fails first; a success is a complete table that passes `validate` |
| `Preset.PresetEntry` | chrombert/finetune/dataset/dataset_config.py:210-233 | each key of the built mapping holds the override if there is one, else the preset's value, moved under the absolute base directory when it is a relative path |
| `Preset.PresetKeepsSupervisedFile` | chrombert/finetune/dataset/dataset_config.py:210 | the call fails unless `supervised_file` is among the overrides, and then passes that value through untouched |
| `Preset.PresetOverrideWins` | chrombert/finetune/dataset/dataset_config.py:225-227 | an override under a key that is not a path key arrives unchanged |
| `Preset.RewritePaths` | chrombert/finetune/dataset/dataset_config.py:226-233 | the in-place loop over the dict yields what `RewriteAll` describes |
| `Preset.GetPresetDatasetConfig` | chrombert/finetune/dataset/dataset_config.py:202-236 | the whole call yields a fresh configuration holding exactly what `PresetConfig` describes, or its error |

## Left out

- File and JSON I/O is not modelled. This covers `load` from a file path
  (lines 125-127), `save` (lines 144-148) and reading the preset file
  (lines 223-224). A loaded mapping is an input. The preset file's parsed
  pairs come from `Preset.Env.readJson`, which has no result when the file
  cannot be opened or is not a JSON object.
- `__repr__`, `__str__` and the `print` in the preset loop (line 229) only
  produce text.
- The filesystem (`abspath`, `join`, `exists`, `listdir`, the module's own
  directory) enters as the `Preset.Env` parameter. The default base
  directory `~/.cache/chrombert/data` and the default preset name
  `"default"` are ordinary arguments.
- The dataset classes and torch's `DataLoader` are outside this model.
  `init_dataset` yields a `DatasetKind` tag with the clone it would be built
  from. `init_dataloader` yields the tag with the batch size, shuffle flag
  and worker count.
- The `return_config` flag of `init_dataset` is not modelled. The model
  always returns the configuration, which is what `init_dataloader` asks for.
- Open stream handles as path values, floats, nested JSON objects and
  general lists are not values of the model. A value is `None`, a bool, an
  int, a string or a list of strings.
- `Schema.FieldNamed`: `update` uses `hasattr`, which also accepts method
  and property names. Assigning to those would create or fail on
  attributes that are not configuration fields. The model restricts `update`
  to the declared fields. `load` from a dict checks the instance's own
  attribute names (line 124), which are exactly the declared fields.
- A keyword named `config` or `return_config` is not an override in the
  source. It binds to the parameter of that name in the constructor and in
  `init_dataset`. `init_dataloader(return_config=...)` raises `TypeError`,
  because line 191 then passes `return_config` twice. The model treats
  every keyword as an override.
- Config.DatasetConfig.Update and Config.DatasetConfig.Load do not model
  sharing with the caller. `setattr` at lines 121, 131 and 139 stores the
  caller's object itself, so a list later mutated by the caller changes the
  record as well. The model's values are immutable, so it cannot show this.
- Config.DatasetConfig.Load: a `config` that is neither a `DatasetConfig`,
  a `str` nor a `dict` makes `load` return without any change (line 128's
  test fails). `Config.NoConfig` stands for such a value as well as for
  `None`, since both leave the object as it was.
- Running Python with assertions disabled (`python -O`) would skip the
  preset loader's three checks. The model always performs them.
