/**
 * The behaviour of a dataset configuration on values: validation, the
 * schema-checked update loop, construction from a seed plus overrides,
 * cloning, and the dispatch from `kind` to a dataset class.
 */
module Semantics {
  import opened Wrappers
  import opened Values
  import opened Schema

  /** The exceptions the configuration and the preset resolver raise. */
  datatype Error =
    | InvalidKind(kind: Value)          // ValueError from validate
    | MissingPerturbationValue          // AttributeError from validate
    | UnknownField(key: string)         // AttributeError from load and update
    | UnsupportedKind(kind: Value)      // AttributeError from init_dataset
    | MissingSupervisedFile             // failed assertion in the preset resolver
    | BasedirNotFound(path: string)     // failed assertion in the preset resolver
    | UnknownPreset(name: string)       // ValueError from the preset resolver
    | UnreadablePreset(path: string)    // the preset file is missing or not a JSON object
    | NotAPath(key: string, value: Value) // TypeError from abspath on a non-string
    | PathNotFound(key: string, path: string) // failed assertion in the preset resolver

  /** The dataset kinds `validate` accepts. */
  const Kinds: seq<string> := ["BasicDataset", "GeneralDataset", "MultiFlankwindowDataset", "PromptDataset"]

  predicate KindAccepted(v: Value) {
    v.Str? && v.s in Kinds
  }

  /** The accepted kinds, value by value. */
  lemma AcceptedKinds(v: Value)
    ensures KindAccepted(v) <==>
      v in {Str("BasicDataset"), Str("GeneralDataset"), Str("MultiFlankwindowDataset"), Str("PromptDataset")}
  {
  }

  /** `validate`: the kind is checked first, then the perturbation value. */
  function Validate(f: Fields): (r: Outcome<Error>)
    requires WellFormed(f)
    ensures r.Pass? <==> KindAccepted(f[Kind]) && (Truthy(f[Perturbation]) ==> f[PerturbationValue] != Null)
    ensures !KindAccepted(f[Kind]) ==> r == Fail(InvalidKind(f[Kind]))
    ensures KindAccepted(f[Kind]) && r.Fail? ==> r == Fail(MissingPerturbationValue)
  {
    if !KindAccepted(f[Kind]) then Fail(InvalidKind(f[Kind]))
    else if Truthy(f[Perturbation]) && f[PerturbationValue] == Null then Fail(MissingPerturbationValue)
    else Pass
  }

  /** "PerturbationDataset", although named in the constructor's
      documentation, is not an accepted kind. */
  lemma PerturbationDatasetRejected(f: Fields)
    requires WellFormed(f) && f[Kind] == Str("PerturbationDataset")
    ensures Validate(f) == Fail(InvalidKind(Str("PerturbationDataset")))
  {
  }

  /** The index of the first pair whose key is not a declared field, or the
      length of the mapping if there is none. */
  function FirstUnknown(kv: Mapping): (n: nat)
    ensures n <= |kv|
    ensures forall j :: 0 <= j < n ==> Declared(kv[j].0)
    ensures n < |kv| ==> !Declared(kv[n].0)
  {
    if kv == [] || !Declared(kv[0].0) then 0 else 1 + FirstUnknown(kv[1..])
  }

  /** `update` (and `load` from a mapping): assigns the pairs in order and
      stops with an error at the first key outside the schema; the pairs
      before it stay assigned. */
  function ApplyUpdates(f: Fields, kv: Mapping): (r: (Fields, Outcome<Error>))
    requires WellFormed(f)
    ensures WellFormed(r.0)
    ensures r.1.Pass? <==> AllDeclared(kv)
    ensures r.1.Fail? ==> r.1.error.UnknownField? && !Declared(r.1.error.key)
  {
    var n := FirstUnknown(kv);
    (Overlay(f, kv[..n]), if n < |kv| then Fail(UnknownField(kv[n].0)) else Pass)
  }

  /** There is an unknown key exactly when some key is outside the schema. */
  lemma FirstUnknownExists(kv: Mapping)
    ensures FirstUnknown(kv) < |kv| <==> !AllDeclared(kv)
  {
  }

  /** A position whose key is unknown while all before it are known is the
      first unknown one. */
  lemma FirstUnknownAt(kv: Mapping, i: nat)
    requires i <= |kv|
    requires forall j :: 0 <= j < i ==> Declared(kv[j].0)
    requires i < |kv| ==> !Declared(kv[i].0)
    ensures FirstUnknown(kv) == i
  {
  }

  /** A declared field ends up with the last value given to it before the
      first unknown key, and keeps its old value otherwise. */
  lemma UpdateSetsNamedFields(f: Fields, kv: Mapping, x: Field)
    requires WellFormed(f)
    ensures var n := FirstUnknown(kv);
      ApplyUpdates(f, kv).0[x] == if Name(x) in Keys(kv[..n]) then LastValue(kv[..n], Name(x)) else f[x]
  {
    OverlayAt(f, kv[..FirstUnknown(kv)], x);
  }

  /** Fields the call does not name never change. */
  lemma UpdateLeavesOthers(f: Fields, kv: Mapping, x: Field)
    requires WellFormed(f) && Name(x) !in Keys(kv)
    ensures ApplyUpdates(f, kv).0[x] == f[x]
  {
    KeysPrefix(kv, FirstUnknown(kv));
    UpdateSetsNamedFields(f, kv, x);
  }

  /** With only declared keys, every pair is assigned and the call succeeds. */
  lemma UpdateAllKnown(f: Fields, kv: Mapping)
    requires WellFormed(f) && AllDeclared(kv)
    ensures ApplyUpdates(f, kv) == (Overlay(f, kv), Pass)
  {
    FirstUnknownAt(kv, |kv|);
    assert kv[..|kv|] == kv;
  }

  /** At the first unknown key the call fails naming that key, with exactly
      the pairs before it assigned: keys after it are not touched. */
  lemma UpdateStopsAtFirstUnknown(f: Fields, kv: Mapping, i: nat)
    requires WellFormed(f) && i < |kv|
    requires forall j :: 0 <= j < i ==> Declared(kv[j].0)
    requires !Declared(kv[i].0)
    ensures ApplyUpdates(f, kv) == (Overlay(f, kv[..i]), Fail(UnknownField(kv[i].0)))
  {
    FirstUnknownAt(kv, i);
  }

  /** What a configuration is constructed from: nothing, a parsed mapping,
      or the table of another configuration. */
  datatype SeedValue = NoSeed | FromMapping(m: Mapping) | FromRecord(f: Fields)

  /** The first half of the constructor: the defaults, then the seed. */
  function Seeded(seed: SeedValue): (r: (Fields, Outcome<Error>))
    requires seed.FromRecord? ==> WellFormed(seed.f)
    ensures WellFormed(r.0)
  {
    DefaultsWellFormed();
    match seed
    case NoSeed => (Defaults(), Pass)
    case FromRecord(g) => (g, Pass)
    case FromMapping(m) => ApplyUpdates(Defaults(), m)
  }

  /** The second half: the keyword overrides, then `validate`. */
  function Finish(f: Fields, kwargs: Mapping): (r: Result<Fields, Error>)
    requires WellFormed(f)
    ensures r.Success? ==> WellFormed(r.value) && Validate(r.value).Pass?
  {
    var (g, updated) := ApplyUpdates(f, kwargs);
    if updated.Fail? then Failure(updated.error) else Checked(g)
  }

  /** The constructor: defaults, then the seed, then the keyword overrides,
      then `validate`. */
  function Construct(seed: SeedValue, kwargs: Mapping): (r: Result<Fields, Error>)
    requires seed.FromRecord? ==> WellFormed(seed.f)
    ensures r.Success? ==> WellFormed(r.value) && Validate(r.value).Pass?
  {
    var (base, loaded) := Seeded(seed);
    if loaded.Fail? then Failure(loaded.error) else Finish(base, kwargs)
  }

  /** The outcome of `validate` on a table, as a construction result. */
  function Checked(f: Fields): Result<Fields, Error>
    requires WellFormed(f)
  {
    if Validate(f).Pass? then Success(f) else Failure(Validate(f).error)
  }

  /** With a mapping seed and only declared keys, an override wins over the
      seed for the same key, the seed wins over the default, and the result
      stands or falls with `validate`. */
  lemma ConstructOverrideWins(m: Mapping, kwargs: Mapping, x: Field)
    requires AllDeclared(m) && AllDeclared(kwargs)
    ensures WellFormed(Overlay(Overlay(Defaults(), m), kwargs))
    ensures Construct(FromMapping(m), kwargs) == Checked(Overlay(Overlay(Defaults(), m), kwargs))
    ensures Overlay(Overlay(Defaults(), m), kwargs)[x] ==
      if Name(x) in Keys(kwargs) then LastValue(kwargs, Name(x))
      else if Name(x) in Keys(m) then LastValue(m, Name(x))
      else Default(x)
  {
    DefaultsWellFormed();
    UpdateAllKnown(Defaults(), m);
    UpdateAllKnown(Overlay(Defaults(), m), kwargs);
    OverlayAt(Defaults(), m, x);
    OverlayAt(Overlay(Defaults(), m), kwargs, x);
  }

  /** Without a seed, the overrides are assigned over the defaults. */
  lemma ConstructFromKeywords(kwargs: Mapping)
    requires AllDeclared(kwargs)
    ensures WellFormed(Overlay(Defaults(), kwargs))
    ensures Construct(NoSeed, kwargs) == Checked(Overlay(Defaults(), kwargs))
  {
    DefaultsWellFormed();
    UpdateAllKnown(Defaults(), kwargs);
  }

  /** A field holds its last override, or its default. */
  lemma KeywordValue(kwargs: Mapping, x: Field)
    ensures Overlay(Defaults(), kwargs)[x] ==
      if Name(x) in Keys(kwargs) then LastValue(kwargs, Name(x)) else Default(x)
  {
    DefaultsWellFormed();
    OverlayAt(Defaults(), kwargs, x);
  }

  /** An unknown key in the seed fails construction with the first such
      key, whatever the overrides are; an unknown key among the overrides of
      a good seed, or of no seed at all, fails it with the first such
      override. */
  lemma ConstructRejectsUnknownKeys(m: Mapping, kwargs: Mapping)
    ensures FirstUnknown(m) < |m| ==>
      Construct(FromMapping(m), kwargs) == Failure(UnknownField(m[FirstUnknown(m)].0))
    ensures FirstUnknown(m) == |m| && FirstUnknown(kwargs) < |kwargs| ==>
      Construct(FromMapping(m), kwargs) == Failure(UnknownField(kwargs[FirstUnknown(kwargs)].0))
    ensures FirstUnknown(kwargs) < |kwargs| ==>
      Construct(NoSeed, kwargs) == Failure(UnknownField(kwargs[FirstUnknown(kwargs)].0))
  {
    DefaultsWellFormed();
  }

  /** Building a record without any argument fails: the default kind is None. */
  lemma ConstructWithoutArguments()
    ensures Construct(NoSeed, []) == Failure(InvalidKind(Null))
  {
    DefaultsWellFormed();
    assert Overlay(Defaults(), []) == Defaults();
    DefaultValues();
  }

  /** A record built from keyword overrides alone validates exactly when
      the overrides give an accepted kind and do not pair a true
      `perturbation` with an explicit None `perturbation_value`: the default
      kind (None) is rejected, and the default perturbation value (0)
      satisfies the perturbation check. */
  lemma KeywordConstruction(kwargs: Mapping)
    requires AllDeclared(kwargs)
    ensures Construct(NoSeed, kwargs).Success? <==>
      && Name(Kind) in Keys(kwargs) && KindAccepted(LastValue(kwargs, Name(Kind)))
      && (Name(Perturbation) in Keys(kwargs) && Truthy(LastValue(kwargs, Name(Perturbation))) ==>
            Name(PerturbationValue) !in Keys(kwargs) || LastValue(kwargs, Name(PerturbationValue)) != Null)
  {
    DefaultValues();
    KeywordValue(kwargs, Kind);
    KeywordValue(kwargs, Perturbation);
    KeywordValue(kwargs, PerturbationValue);
    ConstructFromKeywords(kwargs);
  }

  /** Overrides that leave the dataloader fields alone leave batch size 8,
      20 workers and no shuffling. */
  lemma KeywordConstructionDefaults(kwargs: Mapping)
    requires AllDeclared(kwargs)
    requires Name(BatchSize) !in Keys(kwargs) && Name(NumWorkers) !in Keys(kwargs) && Name(Shuffle) !in Keys(kwargs)
    ensures var f := Overlay(Defaults(), kwargs);
      && f[BatchSize] == Int(8) && f[NumWorkers] == Int(20) && f[Shuffle] == Bool(false)
      && Construct(NoSeed, kwargs) == Checked(f)
  {
    DefaultValues();
    KeywordValue(kwargs, BatchSize);
    KeywordValue(kwargs, NumWorkers);
    KeywordValue(kwargs, Shuffle);
    ConstructFromKeywords(kwargs);
  }

  /** `to_dict` round-trips: a record built from the dict view of a table
      holds that table (so its dict view is the same), provided the table
      validates; otherwise construction fails with the validation error. */
  lemma AsDictRoundTrip(f: Fields)
    requires WellFormed(f)
    ensures Construct(FromMapping(AsDict(f)), []) == Checked(f)
    ensures Construct(FromMapping(AsDict(f)), []).Success? ==>
      AsDict(Construct(FromMapping(AsDict(f)), []).value) == AsDict(f)
  {
    DefaultsWellFormed();
    AsDictContents(f);
    UpdateAllKnown(Defaults(), AsDict(f));
    OverlayAsDict(Defaults(), f);
    UpdateAllKnown(f, []);
  }

  /** `clone(**kwargs)`: a record is built from the source's dict view (this
      runs `validate` on the source's table), then the overrides are applied
      with `update`, without validating again. */
  function CloneSpec(f: Fields, kwargs: Mapping): (r: Result<Fields, Error>)
    requires WellFormed(f)
    ensures r.Success? ==> WellFormed(r.value)
  {
    match Construct(FromMapping(AsDict(f)), [])
    case Failure(e) => Failure(e)
    case Success(g) =>
      var (h, o) := ApplyUpdates(g, kwargs);
      if o.Fail? then Failure(o.error) else Success(h)
  }

  /** A clone succeeds exactly when the source validates and every override
      names a declared field; it then equals the source on every field not
      overridden and holds the last override on the others. A source that
      does not validate makes the clone fail with that error. */
  lemma CloneOverrides(f: Fields, kwargs: Mapping, x: Field)
    requires WellFormed(f)
    ensures CloneSpec(f, kwargs).Success? <==> Validate(f).Pass? && AllDeclared(kwargs)
    ensures Validate(f).Fail? ==> CloneSpec(f, kwargs) == Failure(Validate(f).error)
    ensures CloneSpec(f, kwargs).Success? ==>
      CloneSpec(f, kwargs).value[x] == if Name(x) in Keys(kwargs) then LastValue(kwargs, Name(x)) else f[x]
  {
    AsDictRoundTrip(f);
    if AllDeclared(kwargs) {
      UpdateAllKnown(f, kwargs);
      OverlayAt(f, kwargs, x);
    }
  }

  /** No validation runs after the overrides: a valid record cloned with an
      unaccepted kind yields a clone that does not validate. */
  lemma CloneDoesNotRevalidate(f: Fields)
    requires WellFormed(f) && Validate(f).Pass?
    ensures CloneSpec(f, [("kind", Str("PerturbationDataset"))]).Success?
    ensures Validate(CloneSpec(f, [("kind", Str("PerturbationDataset"))]).value).Fail?
  {
    var kw := [("kind", Str("PerturbationDataset"))];
    assert kw[1..] == [];
    CloneOverrides(f, kw, Kind);
  }

  /** The dataset classes `init_dataset` can build. */
  datatype DatasetKind = GeneralDataset | MultiFlankwindowDataset | PromptDataset

  function KindName(k: DatasetKind): string {
    match k
    case GeneralDataset => "GeneralDataset"
    case MultiFlankwindowDataset => "MultiFlankwindowDataset"
    case PromptDataset => "PromptDataset"
  }

  /** The branch of `init_dataset` that picks the class from `kind`. */
  function Dispatch(kind: Value): (r: Result<DatasetKind, Error>)
    ensures r.Success? ==> kind == Str(KindName(r.value))
    ensures r.Failure? ==> r.error == UnsupportedKind(kind)
  {
    if kind == Str("GeneralDataset") then Success(GeneralDataset)
    else if kind == Str("MultiFlankwindowDataset") then Success(MultiFlankwindowDataset)
    else if kind == Str("PromptDataset") then Success(PromptDataset)
    else Failure(UnsupportedKind(kind))
  }

  /** Every class is reached from its own name. */
  lemma DispatchByName(k: DatasetKind)
    ensures Dispatch(Str(KindName(k))) == Success(k)
  {
    match k
    case GeneralDataset =>
    case MultiFlankwindowDataset =>
    case PromptDataset =>
  }

  /** Every kind that dispatches is accepted by `validate`; of the accepted
      kinds exactly "BasicDataset" does not dispatch. */
  lemma DispatchVersusValidate(v: Value)
    ensures Dispatch(v).Success? ==> KindAccepted(v)
    ensures KindAccepted(v) && Dispatch(v).Failure? <==> v == Str("BasicDataset")
  {
  }

  /** `init_dataset(**kwargs)`: clone the record, update the clone with the
      overrides, and pick the class from the ORIGINAL record's kind. */
  function InitDatasetSpec(f: Fields, kwargs: Mapping): (r: Result<(DatasetKind, Fields), Error>)
    requires WellFormed(f)
    ensures r.Success? ==> WellFormed(r.value.1) && f[Kind] == Str(KindName(r.value.0))
  {
    match CloneSpec(f, [])
    case Failure(e) => Failure(e)
    case Success(g) =>
      var (h, o) := ApplyUpdates(g, kwargs);
      if o.Fail? then Failure(o.error)
      else match Dispatch(f[Kind])
        case Failure(e) => Failure(e)
        case Success(k) => Success((k, h))
  }

  /** `init_dataset` builds the class the record's own kind names, from the
      record cloned with the overrides; an override of `kind` changes the
      configuration handed to the class but not the class. */
  lemma InitDatasetUsesOwnKind(f: Fields, kwargs: Mapping)
    requires WellFormed(f)
    ensures InitDatasetSpec(f, kwargs).Success? <==> CloneSpec(f, kwargs).Success? && Dispatch(f[Kind]).Success?
    ensures InitDatasetSpec(f, kwargs).Success? ==>
      InitDatasetSpec(f, kwargs).value == (Dispatch(f[Kind]).value, CloneSpec(f, kwargs).value)
  {
    CloneOfNothing(f);
  }

  /** Errors of `init_dataset` come in order: validation of the record, an
      unknown override, the kind. */
  lemma InitDatasetErrors(f: Fields, kwargs: Mapping)
    requires WellFormed(f)
    ensures Validate(f).Fail? ==> InitDatasetSpec(f, kwargs) == Failure(Validate(f).error)
    ensures Validate(f).Pass? && FirstUnknown(kwargs) < |kwargs| ==>
      InitDatasetSpec(f, kwargs) == Failure(UnknownField(kwargs[FirstUnknown(kwargs)].0))
    ensures Validate(f).Pass? && FirstUnknown(kwargs) == |kwargs| && Dispatch(f[Kind]).Failure? ==>
      InitDatasetSpec(f, kwargs) == Failure(UnsupportedKind(f[Kind]))
  {
    CloneOfNothing(f);
  }

  /** A clone without overrides is the source itself, if it validates. */
  lemma CloneOfNothing(f: Fields)
    requires WellFormed(f)
    ensures CloneSpec(f, []) == Checked(f)
  {
    AsDictRoundTrip(f);
    UpdateAllKnown(f, []);
  }

  /** A valid "BasicDataset" record has no class to build. */
  lemma BasicDatasetUnsupported(f: Fields, kwargs: Mapping)
    requires WellFormed(f) && f[Kind] == Str("BasicDataset") && Validate(f).Pass?
    requires AllDeclared(kwargs)
    ensures InitDatasetSpec(f, kwargs) == Failure(UnsupportedKind(Str("BasicDataset")))
  {
    FirstUnknownExists(kwargs);
    InitDatasetErrors(f, kwargs);
  }

  /** The parameters `init_dataloader` hands to the batching wrapper. */
  datatype LoaderParams = LoaderParams(batchSize: Value, shuffle: Value, numWorkers: Value)

  /** `init_dataloader(**kwargs)`: the dataset of `init_dataset` together
      with the batch size, shuffle flag and worker count of the configuration
      it was built from. */
  function DataloaderSpec(f: Fields, kwargs: Mapping): (r: Result<(DatasetKind, LoaderParams), Error>)
    requires WellFormed(f)
    ensures r.Success? ==> f[Kind] == Str(KindName(r.value.0))
  {
    match InitDatasetSpec(f, kwargs)
    case Failure(e) => Failure(e)
    case Success((k, g)) =>
      Success((k, LoaderParams(g[BatchSize], g[Shuffle], g[NumWorkers])))
  }

  /** What `init_dataloader` hands on: the class of the object's own kind,
      and for each of the batch size, shuffle flag and worker count the last
      override given for it, or else the object's own value. */
  lemma DataloaderParams(f: Fields, kwargs: Mapping)
    requires WellFormed(f)
    ensures DataloaderSpec(f, kwargs).Success? <==>
      Validate(f).Pass? && AllDeclared(kwargs) && Dispatch(f[Kind]).Success?
    ensures DataloaderSpec(f, kwargs).Success? ==>
      && DataloaderSpec(f, kwargs).value.0 == Dispatch(f[Kind]).value
      && DataloaderSpec(f, kwargs).value.1.batchSize ==
           (if Name(BatchSize) in Keys(kwargs) then LastValue(kwargs, Name(BatchSize)) else f[BatchSize])
      && DataloaderSpec(f, kwargs).value.1.shuffle ==
           (if Name(Shuffle) in Keys(kwargs) then LastValue(kwargs, Name(Shuffle)) else f[Shuffle])
      && DataloaderSpec(f, kwargs).value.1.numWorkers ==
           (if Name(NumWorkers) in Keys(kwargs) then LastValue(kwargs, Name(NumWorkers)) else f[NumWorkers])
  {
    InitDatasetUsesOwnKind(f, kwargs);
    CloneOverrides(f, kwargs, BatchSize);
    CloneOverrides(f, kwargs, Shuffle);
    CloneOverrides(f, kwargs, NumWorkers);
  }
}
