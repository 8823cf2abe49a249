/**
 * `get_preset_dataset_config`: a packaged or user-supplied preset file is
 * read, the caller's overrides are laid over it, relative `*_file` paths are
 * moved under a base directory, and the result is built into a
 * configuration with keyword arguments only.
 */
module Preset {
  import opened Wrappers
  import opened Values
  import opened Schema
  import opened Semantics
  import opened Dicts
  import opened Config

  /** The filesystem as the loader sees it: `os.path.abspath`,
      `os.path.join`, `os.path.exists`, the packaged presets directory and
      its `os.listdir` entries, and the parsed file behind a path (the
      object's pairs in file order, or nothing when the file cannot be
      opened or is not a JSON object). */
  datatype Env = Env(
    abspath: string -> string,
    join: (string, string) -> string,
    pathExists: string -> bool,
    presetsDir: string,
    presetEntries: seq<string>,
    readJson: string -> Option<Mapping>)

  /** `name.split(".")[0]`: the text before the first dot. */
  function Stem(name: string): (r: string)
    ensures r <= name
    ensures '.' !in r
    ensures |r| < |name| ==> name[|r|] == '.'
  {
    if name == [] || name[0] == '.' then [] else [name[0]] + Stem(name[1..])
  }

  /** The preset names on offer: the stems of the directory entries. */
  function Stems(entries: seq<string>): seq<string> {
    seq(|entries|, i requires 0 <= i < |entries| => Stem(entries[i]))
  }

  /** A name is on offer exactly when some entry has it as its stem. */
  lemma StemsMembership(entries: seq<string>, name: string)
    ensures name in Stems(entries) <==> exists e :: e in entries && Stem(e) == name
  {
    if name in Stems(entries) {
      var i :| 0 <= i < |entries| && Stems(entries)[i] == name;
      assert entries[i] in entries;
    }
    if e :| e in entries && Stem(e) == name {
      var i :| 0 <= i < |entries| && entries[i] == e;
      assert Stems(entries)[i] == name;
    }
  }

  /** The file to read: `preset` itself when that path exists, otherwise the
      packaged `<preset>.json` when some entry has that stem. */
  function ResolvePresetFile(env: Env, preset: string): (r: Result<string, Error>)
    ensures r.Failure? <==>
      !env.pathExists(preset) && forall e :: e in env.presetEntries ==> Stem(e) != preset
    ensures r.Failure? ==> r.error == UnknownPreset(preset)
    ensures r.Success? ==>
      if env.pathExists(preset) then r.value == preset
      else r.value == env.join(env.presetsDir, preset + ".json")
  {
    StemsMembership(env.presetEntries, preset);
    if env.pathExists(preset) then Success(preset)
    else if preset in Stems(env.presetEntries) then Success(env.join(env.presetsDir, preset + ".json"))
    else Failure(UnknownPreset(preset))
  }

  /** `key.endswith("_file")`. */
  predicate EndsWithFile(key: string) {
    |key| >= 5 && key[|key| - 5..] == "_file"
  }

  /** The keys whose values the loader treats as paths. */
  predicate IsPathKey(key: string) {
    EndsWithFile(key) && key != "supervised_file"
  }

  /** An entry the loader moves under the base directory: a path key whose
      string value `abspath` changes. */
  predicate IsRelativePath(env: Env, e: (string, Value)) {
    IsPathKey(e.0) && e.1.Str? && env.abspath(e.1.s) != e.1.s
  }

  /** What an entry becomes when the loader accepts it. */
  function Retarget(env: Env, base: string, e: (string, Value)): (r: (string, Value))
    ensures r.0 == e.0
    ensures r.1 != e.1 ==> IsPathKey(e.0) && e.1.Str? && r.1.Str?
  {
    if IsRelativePath(env, e) then (e.0, Str(env.join(base, e.1.s))) else e
  }

  /** One pass of the rewrite loop. A null path is left alone; any other
      non-string value makes `abspath` raise; a moved path must exist. */
  function RewriteEntry(env: Env, base: string, e: (string, Value)): (r: Result<(string, Value), Error>)
    ensures r.Success? ==> r.value == Retarget(env, base, e)
    ensures r.Failure? <==>
      IsPathKey(e.0) &&
      ((!e.1.Null? && !e.1.Str?) || (IsRelativePath(env, e) && !env.pathExists(env.join(base, e.1.s))))
    ensures r.Failure? ==> r.error.NotAPath? || r.error.PathNotFound?
  {
    var (key, value) := e;
    if !IsPathKey(key) || value.Null? then Success(e)
    else if !value.Str? then Failure(NotAPath(key, value))
    else if env.abspath(value.s) == value.s then Success(e)
    else
      var p := env.join(base, value.s);
      if env.pathExists(p) then Success((key, Str(p))) else Failure(PathNotFound(key, p))
  }

  /** The whole loop: every entry in order, stopping at the first error. */
  function RewriteAll(env: Env, base: string, c: Mapping): (r: Result<Mapping, Error>)
    ensures r.Success? ==> |r.value| == |c|
    ensures r.Success? ==> forall i :: 0 <= i < |c| ==> r.value[i] == Retarget(env, base, c[i])
  {
    if c == [] then Success([])
    else match RewriteEntry(env, base, c[0])
      case Failure(e) => Failure(e)
      case Success(x) =>
        match RewriteAll(env, base, c[1..])
        case Failure(e) => Failure(e)
        case Success(rest) => Success([x] + rest)
  }

  /** With every entry accepted, the loop succeeds. */
  lemma {:induction false} RewriteAllSucceeds(env: Env, base: string, c: Mapping)
    requires forall i :: 0 <= i < |c| ==> RewriteEntry(env, base, c[i]).Success?
    ensures RewriteAll(env, base, c).Success?
  {
    if c != [] {
      assert RewriteEntry(env, base, c[0]).Success?;
      RewriteAllSucceeds(env, base, c[1..]);
    }
  }

  /** The loop fails with the error of the first entry it rejects. */
  lemma {:induction false} RewriteAllFailsAt(env: Env, base: string, c: Mapping, i: nat)
    requires i < |c|
    requires forall j :: 0 <= j < i ==> RewriteEntry(env, base, c[j]).Success?
    requires RewriteEntry(env, base, c[i]).Failure?
    ensures RewriteAll(env, base, c) == Failure(RewriteEntry(env, base, c[i]).error)
  {
    if i == 0 {
    } else {
      assert RewriteEntry(env, base, c[0]).Success?;
      RewriteAllFailsAt(env, base, c[1..], i - 1);
    }
  }

  /** Rewriting keeps every key in place, so a lookup sees the retargeted
      value of the same entry. */
  lemma {:induction false} GetAfterRewrite(env: Env, base: string, c: Mapping, k: string)
    requires RewriteAll(env, base, c).Success?
    ensures Get(RewriteAll(env, base, c).value, k) ==
      match Get(c, k)
      case None => None
      case Some(v) => Some(Retarget(env, base, (k, v)).1)
  {
    if c != [] {
      assert RewriteEntry(env, base, c[0]).Success?;
      GetAfterRewrite(env, base, c[1..], k);
    }
  }

  /** The loader's `config` before the rewrite: the preset file parsed (a
      repeated key keeps its first position and its last value), then
      updated with the overrides. */
  function Merge(pairs: Mapping, kwargs: Mapping): (r: Mapping)
    ensures Distinct(r)
  {
    UpdateDistinct([], pairs);
    UpdateDistinct(Dicts.Update([], pairs), kwargs);
    Dicts.Update(Dicts.Update([], pairs), kwargs)
  }

  /** Overrides win over the preset; preset keys come first, in file order. */
  lemma MergeContents(pairs: Mapping, kwargs: Mapping, k: string)
    ensures Get(Merge(pairs, kwargs), k) ==
      if k in Keys(kwargs) then Some(LastValue(kwargs, k))
      else if k in Keys(pairs) then Some(LastValue(pairs, k))
      else None
    ensures Distinct(Merge(pairs, kwargs))
    ensures Keys(Merge(pairs, kwargs)) == Keys(pairs) + Keys(kwargs)
  {
    GetAfterUpdate(Dicts.Update([], pairs), kwargs, k);
    GetAfterUpdate([], pairs, k);
    UpdateDistinct([], pairs);
    UpdateDistinct(Dicts.Update([], pairs), kwargs);
  }

  /** Everything before the final construction: the keyword arguments the
      configuration is built from. */
  function PresetMapping(env: Env, preset: string, basedir: string, kwargs: Mapping): (r: Result<Mapping, Error>)
    ensures r.Success? ==> "supervised_file" in Keys(kwargs)
    ensures r.Success? ==> env.pathExists(env.abspath(basedir)) && ResolvePresetFile(env, preset).Success?
  {
    if "supervised_file" !in Keys(kwargs) then Failure(MissingSupervisedFile)
    else
      var base := env.abspath(basedir);
      if !env.pathExists(base) then Failure(BasedirNotFound(base))
      else match ResolvePresetFile(env, preset)
        case Failure(e) => Failure(e)
        case Success(file) =>
          match env.readJson(file)
          case None => Failure(UnreadablePreset(file))
          case Some(pairs) => RewriteAll(env, base, Merge(pairs, kwargs))
  }

  /** The whole call: `DatasetConfig(**config)` on the rewritten mapping. */
  function PresetConfig(env: Env, preset: string, basedir: string, kwargs: Mapping): (r: Result<Fields, Error>)
    ensures r.Success? ==> WellFormed(r.value) && Validate(r.value).Pass?
    ensures "supervised_file" !in Keys(kwargs) ==> r == Failure(MissingSupervisedFile)
  {
    match PresetMapping(env, preset, basedir, kwargs)
    case Failure(e) => Failure(e)
    case Success(config) => Construct(NoSeed, config)
  }

  /** Each key of the built mapping holds the override if there is one, else
      the preset's value, moved under the absolute base directory when it is
      a relative path. */
  lemma PresetEntry(env: Env, preset: string, basedir: string, kwargs: Mapping, k: string)
    requires PresetMapping(env, preset, basedir, kwargs).Success?
    ensures var pairs := env.readJson(ResolvePresetFile(env, preset).value).value;
      Get(PresetMapping(env, preset, basedir, kwargs).value, k) ==
        if k in Keys(kwargs) then Some(Retarget(env, env.abspath(basedir), (k, LastValue(kwargs, k))).1)
        else if k in Keys(pairs) then Some(Retarget(env, env.abspath(basedir), (k, LastValue(pairs, k))).1)
        else None
  {
    var pairs := env.readJson(ResolvePresetFile(env, preset).value).value;
    MergeContents(pairs, kwargs, k);
    GetAfterRewrite(env, env.abspath(basedir), Merge(pairs, kwargs), k);
  }

  /** The call fails unless `supervised_file` is among the overrides, and
      then passes the given value through untouched. */
  lemma PresetKeepsSupervisedFile(env: Env, preset: string, basedir: string, kwargs: Mapping)
    ensures PresetMapping(env, preset, basedir, kwargs).Success? ==>
      "supervised_file" in Keys(kwargs) &&
      Get(PresetMapping(env, preset, basedir, kwargs).value, "supervised_file") ==
        Some(LastValue(kwargs, "supervised_file"))
  {
    if PresetMapping(env, preset, basedir, kwargs).Success? {
      PresetEntry(env, preset, basedir, kwargs, "supervised_file");
    }
  }

  /** An override under a key that is not a path key arrives unchanged. */
  lemma PresetOverrideWins(env: Env, preset: string, basedir: string, kwargs: Mapping, k: string)
    requires PresetMapping(env, preset, basedir, kwargs).Success?
    requires k in Keys(kwargs) && !IsPathKey(k)
    ensures Get(PresetMapping(env, preset, basedir, kwargs).value, k) == Some(LastValue(kwargs, k))
  {
    PresetEntry(env, preset, basedir, kwargs, k);
  }

  /** The loop that carries the rewrite out, in place on `config`. */
  method RewritePaths(env: Env, base: string, c: Mapping) returns (r: Result<Mapping, Error>)
    ensures r == RewriteAll(env, base, c)
  {
    var config := c;
    var i := 0;
    while i < |config|
      invariant |config| == |c| && 0 <= i <= |c|
      invariant forall j :: 0 <= j < i ==> RewriteEntry(env, base, c[j]).Success?
      invariant forall j :: 0 <= j < i ==> config[j] == Retarget(env, base, c[j])
      invariant config[i..] == c[i..]
    {
      assert config[i] == c[i] by { assert config[i..][0] == c[i..][0]; }
      var entry := RewriteEntry(env, base, config[i]);
      if entry.Failure? {
        RewriteAllFailsAt(env, base, c, i);
        return Failure(entry.error);
      }
      config := config[i := entry.value];
      i := i + 1;
    }
    RewriteAllSucceeds(env, base, c);
    var expected := RewriteAll(env, base, c).value;
    assert config == expected;
    return Success(config);
  }

  /** `get_preset_dataset_config(preset, basedir, **kwargs)`. */
  method GetPresetDatasetConfig(env: Env, preset: string, basedir: string, kwargs: Mapping)
    returns (r: Result<DatasetConfig, Error>)
    ensures r.Success? ==> fresh(r.value) && r.value.Valid()
    ensures TableOf(r) == PresetConfig(env, preset, basedir, kwargs)
  {
    if "supervised_file" !in Keys(kwargs) {
      return Failure(MissingSupervisedFile);
    }
    var base := env.abspath(basedir);
    if !env.pathExists(base) {
      return Failure(BasedirNotFound(base));
    }
    var file := ResolvePresetFile(env, preset);
    if file.Failure? {
      return Failure(file.error);
    }
    var parsed := env.readJson(file.value);
    if parsed.None? {
      return Failure(UnreadablePreset(file.value));
    }
    var config := Merge(parsed.value, kwargs);
    var rewritten := RewritePaths(env, base, config);
    if rewritten.Failure? {
      return Failure(rewritten.error);
    }
    r := DatasetConfig.New(NoConfig, rewritten.value);
  }
}
