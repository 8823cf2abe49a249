/**
 * The declared attribute table of a dataset configuration: its 22 fields in
 * declaration order with their attribute names and defaults, the four
 * derived constants, attribute assignment by name, and the dict view
 * returned by `to_dict`.
 */
module Schema {
  import opened Wrappers
  import opened Values

  /** The declared fields. */
  datatype Field =
    // general
    | Hdf5File | SupervisedFile | Kind | MetaFile
    // ignore
    | Ignore | IgnoreObject
    // dataloader
    | BatchSize | NumWorkers | Shuffle | PinMemory
    // perturbation
    | Perturbation | PerturbationObject | PerturbationValue
    // prompt
    | PromptKind | PromptRegulator | PromptRegulatorCacheFile
    | PromptCelltype | PromptCelltypeCacheFile
    | PromptRegulatorCachePinMemory | PromptRegulatorCacheLimit
    // prompt.dna
    | FastaFile
    // multi window
    | FlankWindow

  /** The attribute name of a field. */
  function Name(x: Field): string {
    match x
    case Hdf5File => "hdf5_file"
    case SupervisedFile => "supervised_file"
    case Kind => "kind"
    case MetaFile => "meta_file"
    case Ignore => "ignore"
    case IgnoreObject => "ignore_object"
    case BatchSize => "batch_size"
    case NumWorkers => "num_workers"
    case Shuffle => "shuffle"
    case PinMemory => "pin_memory"
    case Perturbation => "perturbation"
    case PerturbationObject => "perturbation_object"
    case PerturbationValue => "perturbation_value"
    case PromptKind => "prompt_kind"
    case PromptRegulator => "prompt_regulator"
    case PromptRegulatorCacheFile => "prompt_regulator_cache_file"
    case PromptCelltype => "prompt_celltype"
    case PromptCelltypeCacheFile => "prompt_celltype_cache_file"
    case PromptRegulatorCachePinMemory => "prompt_regulator_cache_pin_memory"
    case PromptRegulatorCacheLimit => "prompt_regulator_cache_limit"
    case FastaFile => "fasta_file"
    case FlankWindow => "flank_window"
  }

  /** The fields in the order the constructor assigns them. */
  const FieldOrder: seq<Field> := [
    Hdf5File, SupervisedFile, Kind, MetaFile,
    Ignore, IgnoreObject,
    BatchSize, NumWorkers, Shuffle, PinMemory,
    Perturbation, PerturbationObject, PerturbationValue,
    PromptKind, PromptRegulator, PromptRegulatorCacheFile,
    PromptCelltype, PromptCelltypeCacheFile,
    PromptRegulatorCachePinMemory, PromptRegulatorCacheLimit,
    FastaFile,
    FlankWindow
  ]

  /** `hasattr(self, key)`, restricted to the declared fields: the field an
      attribute name denotes. The names are grouped by length, so a lookup
      compares the key with at most three of them. */
  function FieldNamed(key: string): (r: Option<Field>)
    ensures r.Some? ==> Name(r.value) == key
  {
    match |key|
    case 4 => if key == "kind" then Some(Kind) else None
    case 6 => if key == "ignore" then Some(Ignore) else None
    case 7 => if key == "shuffle" then Some(Shuffle) else None
    case 9 =>
      if key == "hdf5_file" then Some(Hdf5File)
      else if key == "meta_file" then Some(MetaFile)
      else None
    case 10 =>
      if key == "batch_size" then Some(BatchSize)
      else if key == "pin_memory" then Some(PinMemory)
      else if key == "fasta_file" then Some(FastaFile)
      else None
    case 11 =>
      if key == "num_workers" then Some(NumWorkers)
      else if key == "prompt_kind" then Some(PromptKind)
      else None
    case 12 =>
      if key == "perturbation" then Some(Perturbation)
      else if key == "flank_window" then Some(FlankWindow)
      else None
    case 13 => if key == "ignore_object" then Some(IgnoreObject) else None
    case 15 =>
      if key == "supervised_file" then Some(SupervisedFile)
      else if key == "prompt_celltype" then Some(PromptCelltype)
      else None
    case 16 => if key == "prompt_regulator" then Some(PromptRegulator) else None
    case 18 => if key == "perturbation_value" then Some(PerturbationValue) else None
    case 19 => if key == "perturbation_object" then Some(PerturbationObject) else None
    case 26 => if key == "prompt_celltype_cache_file" then Some(PromptCelltypeCacheFile) else None
    case 27 => if key == "prompt_regulator_cache_file" then Some(PromptRegulatorCacheFile) else None
    case 28 => if key == "prompt_regulator_cache_limit" then Some(PromptRegulatorCacheLimit) else None
    case 33 => if key == "prompt_regulator_cache_pin_memory" then Some(PromptRegulatorCachePinMemory) else None
    case _ => None
  }

  /** A key that names a declared field. */
  predicate Declared(key: string) {
    FieldNamed(key).Some?
  }

  /** Every key of the mapping names a declared field. */
  predicate AllDeclared(kv: Mapping) {
    forall j :: 0 <= j < |kv| ==> Declared(kv[j].0)
  }

  /** The four read-only properties; none depends on a stored field. */
  const VocabShift: int := 5
  const VocabLevels: int := 5
  const TokenIdPad: int := 0
  const PositionIdPad: int := 0

  /** The attribute table of one configuration. */
  type Fields = map<Field, Value>

  /** The table holds every declared field. */
  predicate WellFormed(f: Fields) {
    forall x: Field :: x in f
  }

  /** The constructor's assignment to each field. */
  function Default(x: Field): Value {
    match x
    case Ignore => Bool(false)
    case BatchSize => Int(8)
    case NumWorkers => Int(20)
    case Shuffle => Bool(false)
    case PinMemory => Bool(true)
    case Perturbation => Bool(false)
    case PerturbationValue => Int(0)
    case PromptRegulatorCachePinMemory => Bool(false)
    case PromptRegulatorCacheLimit => Int(3)
    case FlankWindow => Int(0)
    case _ => Null
  }

  /** The table of a freshly constructed record, before any seed or
      override. */
  function Defaults(): (r: Fields)
    ensures WellFormed(r)
  {
    map x: Field :: Default(x)
  }

  /** The position of a field in the declaration order. */
  function Index(x: Field): (i: nat)
    ensures i < |FieldOrder| && FieldOrder[i] == x
  {
    match x
    case Hdf5File => 0
    case SupervisedFile => 1
    case Kind => 2
    case MetaFile => 3
    case Ignore => 4
    case IgnoreObject => 5
    case BatchSize => 6
    case NumWorkers => 7
    case Shuffle => 8
    case PinMemory => 9
    case Perturbation => 10
    case PerturbationObject => 11
    case PerturbationValue => 12
    case PromptKind => 13
    case PromptRegulator => 14
    case PromptRegulatorCacheFile => 15
    case PromptCelltype => 16
    case PromptCelltypeCacheFile => 17
    case PromptRegulatorCachePinMemory => 18
    case PromptRegulatorCacheLimit => 19
    case FastaFile => 20
    case FlankWindow => 21
  }

  /** `setattr(self, key, value)` for a declared attribute name. */
  function Assign(f: Fields, key: string, v: Value): (r: Fields)
    ensures r.Keys == f.Keys
  {
    match FieldNamed(key)
    case None => f
    case Some(x) => if x in f then f[x := v] else f
  }

  /** The pairs of `kv` assigned one after the other; keys that name no
      field are passed over. */
  function Overlay(f: Fields, kv: Mapping): (r: Fields)
    ensures r.Keys == f.Keys
    decreases |kv|
  {
    if kv == [] then f else Overlay(Assign(f, kv[0].0, kv[0].1), kv[1..])
  }

  /** `to_dict`: one (name, value) pair per declared field, in declaration
      order. Values are immutable here, so the copy is a deep copy. */
  function AsDict(f: Fields): (d: Mapping)
    requires WellFormed(f)
  {
    seq(|FieldOrder|, i requires 0 <= i < |FieldOrder| => (Name(FieldOrder[i]), f[FieldOrder[i]]))
  }

  /** Each field's own name denotes it. */
  lemma NameDenotes(x: Field)
    ensures FieldNamed(Name(x)) == Some(x)
  {
    match x
    case Hdf5File =>
    case SupervisedFile =>
    case Kind =>
    case MetaFile =>
    case Ignore =>
    case IgnoreObject =>
    case BatchSize =>
    case NumWorkers =>
    case Shuffle =>
    case PinMemory =>
    case Perturbation =>
    case PerturbationObject =>
    case PerturbationValue =>
    case PromptKind =>
    case PromptRegulator =>
    case PromptRegulatorCacheFile =>
    case PromptCelltype =>
    case PromptCelltypeCacheFile =>
    case PromptRegulatorCachePinMemory =>
    case PromptRegulatorCacheLimit =>
    case FastaFile =>
    case FlankWindow =>
  }

  /** A key denotes a field exactly when it is that field's name; so no two
      fields share a name. */
  lemma Denotes(key: string, x: Field)
    ensures FieldNamed(key) == Some(x) <==> key == Name(x)
  {
    NameDenotes(x);
  }

  /** The defaults table holds every field, with its default. */
  lemma DefaultsWellFormed()
    ensures WellFormed(Defaults())
    ensures forall x: Field :: Defaults()[x] == Default(x)
  {
    forall x: Field ensures x in Defaults() && Defaults()[x] == Default(x) {
      assert FieldOrder[Index(x)] == x;
    }
  }

  /** Every field appears in the declaration order, exactly once. */
  lemma FieldOrderComplete()
    ensures |FieldOrder| == 22
    ensures forall x: Field :: x in FieldOrder
    ensures forall i, j :: 0 <= i < j < |FieldOrder| ==> FieldOrder[i] != FieldOrder[j]
  {
    forall x: Field ensures x in FieldOrder {
      assert FieldOrder[Index(x)] == x;
    }
    forall i | 0 <= i < |FieldOrder| ensures Index(FieldOrder[i]) == i {
    }
  }

  /** A fresh record holds the documented dataloader, perturbation, prompt
      cache and flank-window defaults, and no dataset kind. */
  lemma DefaultValues()
    ensures Defaults()[Kind] == Null
    ensures Defaults()[BatchSize] == Int(8) && Defaults()[NumWorkers] == Int(20)
    ensures Defaults()[Shuffle] == Bool(false) && Defaults()[PinMemory] == Bool(true)
    ensures Defaults()[Perturbation] == Bool(false) && Defaults()[PerturbationValue] == Int(0)
    ensures Defaults()[PromptRegulatorCacheLimit] == Int(3)
    ensures Defaults()[FlankWindow] == Int(0)
  {
    DefaultsWellFormed();
  }

  /** After the overlay, a field holds the last value `kv` gave its name, or
      its old value if `kv` never names it. */
  lemma {:induction false} OverlayAt(f: Fields, kv: Mapping, x: Field)
    requires x in f
    ensures Overlay(f, kv)[x] == if Name(x) in Keys(kv) then LastValue(kv, Name(x)) else f[x]
    decreases |kv|
  {
    if kv != [] {
      Denotes(kv[0].0, x);
      OverlayAt(Assign(f, kv[0].0, kv[0].1), kv[1..], x);
    }
  }

  /** Overlaying one more pair is one more assignment. */
  lemma {:induction false} OverlayAppend(f: Fields, kv: Mapping, p: (string, Value))
    ensures Overlay(f, kv + [p]) == Assign(Overlay(f, kv), p.0, p.1)
    decreases |kv|
  {
    if kv == [] {
      assert [] + [p] == [p];
    } else {
      assert (kv + [p])[1..] == kv[1..] + [p];
      OverlayAppend(Assign(f, kv[0].0, kv[0].1), kv[1..], p);
    }
  }

  /** The same, for a growing prefix: the shape of an assignment loop. */
  lemma OverlayStep(f: Fields, kv: Mapping, i: nat)
    requires i < |kv|
    ensures Overlay(f, kv[..i + 1]) == Assign(Overlay(f, kv[..i]), kv[i].0, kv[i].1)
  {
    assert kv[..i + 1] == kv[..i] + [kv[i]];
    OverlayAppend(f, kv[..i], kv[i]);
  }

  /** The dict view has one entry per declared field, in declaration order,
      and no key twice. */
  lemma AsDictOrder(f: Fields)
    requires WellFormed(f)
    ensures |AsDict(f)| == |FieldOrder| == 22
    ensures forall i :: 0 <= i < |FieldOrder| ==> AsDict(f)[i].0 == Name(FieldOrder[i])
    ensures forall i, j :: 0 <= i < j < |AsDict(f)| ==> AsDict(f)[i].0 != AsDict(f)[j].0
  {
    FieldOrderComplete();
    forall i, j | 0 <= i < j < |FieldOrder|
      ensures Name(FieldOrder[i]) != Name(FieldOrder[j])
    {
      NameDenotes(FieldOrder[i]);
      NameDenotes(FieldOrder[j]);
    }
  }

  /** Every key of the dict view names a declared field, and each field's
      name carries that field's value. */
  lemma AsDictContents(f: Fields)
    requires WellFormed(f)
    ensures AllDeclared(AsDict(f))
    ensures forall x: Field :: Name(x) in Keys(AsDict(f)) && LastValue(AsDict(f), Name(x)) == f[x]
  {
    var d := AsDict(f);
    forall j | 0 <= j < |d| ensures Declared(d[j].0) {
      NameDenotes(FieldOrder[j]);
    }
    forall x: Field ensures Name(x) in Keys(d) && LastValue(d, Name(x)) == f[x] {
      AsDictAt(f, x);
    }
  }

  lemma AsDictAt(f: Fields, x: Field)
    requires WellFormed(f)
    ensures Name(x) in Keys(AsDict(f)) && LastValue(AsDict(f), Name(x)) == f[x]
  {
    var d := AsDict(f);
    var i := Index(x);
    assert d[i].0 == Name(x);
    KeysMembership(d, Name(x));
    forall j | 0 <= j < |d| && d[j].0 == Name(x) ensures d[j].1 == f[x] {
      Denotes(d[j].0, FieldOrder[j]);
      Denotes(d[j].0, x);
    }
    LastValueUniform(d, Name(x), f[x]);
  }

  /** Assigning the dict view of `f` into any well-formed table yields `f`:
      loading from a record copies every field. */
  lemma OverlayAsDict(m: Fields, f: Fields)
    requires WellFormed(m) && WellFormed(f)
    ensures Overlay(m, AsDict(f)) == f
  {
    AsDictContents(f);
    var r := Overlay(m, AsDict(f));
    forall x: Field ensures r[x] == f[x] {
      OverlayAt(m, AsDict(f), x);
    }
  }
}
