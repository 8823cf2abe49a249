/**
 * The mutable configuration object: an attribute table that the constructor
 * fills with defaults and that `load` and `update` overwrite in place, one
 * key at a time, together with `to_dict`, `clone`, `init_dataset` and
 * `init_dataloader`.
 */
module Config {
  import opened Wrappers
  import opened Values
  import opened Schema
  import opened Semantics

  /** What the constructor and `load` accept: nothing, a parsed mapping, or
      another configuration object. `NoConfig` also stands for any other
      value, which `load` ignores just as it ignores `None`. */
  datatype Source = NoConfig | Dict(m: Mapping) | Instance(c: DatasetConfig)

  /** The value a source stands for, read in the current heap. */
  function SourceValue(src: Source): SeedValue
    reads if src.Instance? then {src.c} else {}
  {
    match src
    case NoConfig => NoSeed
    case Dict(m) => FromMapping(m)
    case Instance(c) => FromRecord(c.fields)
  }

  /** The attribute table of a constructed configuration, or the error that
      prevented its construction. */
  function TableOf(r: Result<DatasetConfig, Error>): Result<Fields, Error>
    reads if r.Success? then {r.value} else {}
  {
    match r
    case Success(c) => Success(c.fields)
    case Failure(e) => Failure(e)
  }

  /** The object's `validate`, `to_dict` and `items` only read the attribute
      table, so the methods below call `Semantics.Validate(fields)` and
      `AsDict(fields)` on it directly. */
  class DatasetConfig {
    /** The instance attributes, by name. */
    var fields: Fields

    /** The object always has exactly the declared attributes. (This is the
        schema invariant, not the source's `validate`.) */
    ghost predicate Valid()
      reads this
    {
      WellFormed(fields)
    }

    /** The attribute assignments at the start of the constructor. */
    constructor ()
      ensures Valid() && fields == Defaults()
    {
      DefaultsWellFormed();
      fields := Defaults();
    }

    /** `update(**kwargs)`: assigns the pairs in order; at the first key that
        is not an attribute it stops with an error, keeping the assignments
        already made. */
    method Update(kwargs: Mapping) returns (o: Outcome<Error>)
      requires Valid()
      modifies this
      ensures Valid()
      ensures (fields, o) == ApplyUpdates(old(fields), kwargs)
    {
      var i := 0;
      while i < |kwargs|
        invariant 0 <= i <= |kwargs|
        invariant forall j :: 0 <= j < i ==> Declared(kwargs[j].0)
        invariant fields == Overlay(old(fields), kwargs[..i])
      {
        var key, value := kwargs[i].0, kwargs[i].1;
        var x := FieldNamed(key);
        if x.None? {
          UpdateStopsAtFirstUnknown(old(fields), kwargs, i);
          return Fail(UnknownField(key));
        }
        OverlayStep(old(fields), kwargs, i);
        fields := fields[x.value := value];
        i := i + 1;
      }
      assert kwargs[..|kwargs|] == kwargs;
      UpdateAllKnown(old(fields), kwargs);
      return Pass;
    }

    /** `load(config)`: from nothing, no change; from a mapping, the same
        checked assignment loop as `update`; from another configuration,
        every attribute of its `to_dict` snapshot, which makes this object
        equal to it field by field (also when it is this object itself). */
    method Load(src: Source) returns (o: Outcome<Error>)
      requires Valid()
      requires src.Instance? ==> src.c.Valid()
      modifies this
      ensures Valid()
      ensures src.NoConfig? ==> fields == old(fields) && o == Pass
      ensures src.Dict? ==> (fields, o) == ApplyUpdates(old(fields), src.m)
      ensures src.Instance? ==> fields == old(src.c.fields) && o == Pass
    {
      match src
      case NoConfig =>
        o := Pass;
      case Dict(m) =>
        o := Update(m);
      case Instance(c) =>
        var d := AsDict(c.fields);
        var i := 0;
        while i < |d|
          invariant 0 <= i <= |d|
          invariant d == AsDict(old(c.fields))
          invariant fields == Overlay(old(fields), d[..i])
        {
          OverlayStep(old(fields), d, i);
          fields := Assign(fields, d[i].0, d[i].1);
          i := i + 1;
        }
        assert d[..|d|] == d;
        OverlayAsDict(old(fields), old(c.fields));
        o := Pass;
    }

    /** The start of the constructor: the defaults, then `load(config)`. */
    static method Seed(src: Source) returns (c: DatasetConfig, o: Outcome<Error>)
      requires src.Instance? ==> src.c.Valid()
      ensures fresh(c) && c.Valid()
      ensures (c.fields, o) == Seeded(SourceValue(src))
    {
      c := new DatasetConfig();
      o := c.Load(src);
    }

    /** `DatasetConfig(config, **kwargs)`: defaults, then `load(config)`, then
        `update(**kwargs)`, then `validate()`. */
    static method New(src: Source, kwargs: Mapping) returns (r: Result<DatasetConfig, Error>)
      requires src.Instance? ==> src.c.Valid()
      ensures r.Success? ==> fresh(r.value) && r.value.Valid()
      ensures TableOf(r) == Construct(SourceValue(src), kwargs)
    {
      var c, o := Seed(src);
      if o.Fail? {
        return Failure(o.error);
      }
      o := c.Update(kwargs);
      if o.Fail? {
        return Failure(o.error);
      }
      var v := Validate(c.fields);
      if v.Fail? {
        return Failure(v.error);
      }
      return Success(c);
    }

    /** `clone(**kwargs)`: a new configuration built from this one's
        `to_dict`, then updated with the overrides. This object is left as
        it was. */
    method Clone(kwargs: Mapping) returns (r: Result<DatasetConfig, Error>)
      requires Valid()
      ensures unchanged(this)
      ensures r.Success? ==> fresh(r.value) && r.value.Valid()
      ensures TableOf(r) == CloneSpec(fields, kwargs)
    {
      var dc := New(Dict(AsDict(fields)), []);
      if dc.Failure? {
        return Failure(dc.error);
      }
      var o := dc.value.Update(kwargs);
      if o.Fail? {
        return Failure(o.error);
      }
      return Success(dc.value);
    }

    /** `init_dataset(return_config=True, **kwargs)`: the dataset class chosen
        by this object's kind, and the updated clone it is built from. */
    method InitDataset(kwargs: Mapping) returns (r: Result<(DatasetKind, DatasetConfig), Error>)
      requires Valid()
      ensures unchanged(this)
      ensures r.Success? ==> fresh(r.value.1) && r.value.1.Valid()
      ensures InitDatasetSpec(fields, kwargs) ==
        match r
        case Success(p) => Success((p.0, p.1.fields))
        case Failure(e) => Failure(e)
    {
      var nc := Clone([]);
      if nc.Failure? {
        return Failure(nc.error);
      }
      var o := nc.value.Update(kwargs);
      if o.Fail? {
        return Failure(o.error);
      }
      var kind := Dispatch(fields[Kind]);
      if kind.Failure? {
        return Failure(kind.error);
      }
      return Success((kind.value, nc.value));
    }

    /** `init_dataloader(**kwargs)`: the dataset of `init_dataset` and the
        batch size, shuffle flag and worker count of its configuration. */
    method InitDataloader(kwargs: Mapping) returns (r: Result<(DatasetKind, LoaderParams), Error>)
      requires Valid()
      ensures r == DataloaderSpec(fields, kwargs)
    {
      var ds := InitDataset(kwargs);
      if ds.Failure? {
        return Failure(ds.error);
      }
      var (kind, dc) := ds.value;
      return Success((kind, LoaderParams(dc.fields[BatchSize], dc.fields[Shuffle], dc.fields[NumWorkers])));
    }
  }
}
