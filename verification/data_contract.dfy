/** The data-class contract (`JSONSerializable`): construction stores the
    tag and registers the class, `to_dict` is the instance's fields, and
    the default `from_dict` passes the constructor only the entries named
    like its parameters. */
module DataContract {
  import opened Results
  import opened Trees
  import opened Registry

  /** The entries of `o` whose keys are constructor parameters. */
  function Filter(o: map<string, Value>, params: set<string>): (r: map<string, Value>)
    ensures r.Keys == o.Keys * params
    ensures forall k :: k in r ==> r[k] == o[k]
  {
    map k | k in o && k in params :: o[k]
  }

  /** Keyword arguments `args` bind to the constructor of `d`: every key is
      a parameter and every parameter without a default is given. */
  predicate Binds(d: Descriptor, args: map<string, Value>)
    requires d.DataClass?
  {
    args.Keys <= d.params && d.required <= args.Keys
  }

  /** Calling the class of identifier `id` with keyword arguments `args`.
      Binding comes first: an undeclared keyword, then a missing required
      parameter, is a `TypeError` raised before any constructor code runs.
      Then the base constructor stores the tag and the constructor body
      sets its own fields (or raises). */
  function Construct(id: string, d: Descriptor, args: map<string, Value>): (r: Outcome<Value>)
    requires d.DataClass?
    ensures !(args.Keys <= d.params) ==> r == Err(UnexpectedArguments(args.Keys - d.params))
    ensures args.Keys <= d.params && !(d.required <= args.Keys) ==>
              r == Err(MissingArguments(d.required - args.Keys))
    ensures Binds(d, args) && d.init(args).Err? ==> r == Err(d.init(args).error)
    ensures r.Ok? <==> Binds(d, args) && d.init(args).Ok?
    ensures r.Ok? ==>
              var own := d.init(args).value;
              && r.value.Instance?
              && r.value.typeId == id
              && r.value.fields.Keys == own.Keys + {TagKey}
              && (forall k :: k in own ==> r.value.fields[k] == own[k])
              && (TagKey !in own ==> r.value.fields[TagKey] == Str(id))
  {
    if !(args.Keys <= d.params) then
      Err(UnexpectedArguments(args.Keys - d.params))
    else if !(d.required <= args.Keys) then
      Err(MissingArguments(d.required - args.Keys))
    else
      var own :- d.init(args);
      Ok(Instance(id, map[TagKey := Str(id)] + own))
  }

  /** `SomeClass(**args)` in user code. Arguments that do not bind raise
      before `__init__` runs, so nothing is registered. Otherwise the base
      constructor registers the class (before the body runs, so also when
      the body raises) and the instance is built as `Construct` says.
      The first three postconditions are the contract; the others are
      corollaries of them and of the contracts of `Register` and
      `Construct`, spelled out. */
  function New(reg: TypeMap, c: Class, args: map<string, Value>): (r: (TypeMap, Outcome<Value>))
    requires c.descriptor.DataClass?
    ensures !Binds(c.descriptor, args) ==> r.0 == reg && r.1.Err?
    ensures Binds(c.descriptor, args) ==> r.0 == Register(reg, c)
    ensures r.1 == Construct(c.Id(), c.descriptor, args)
    // corollaries
    ensures Binds(c.descriptor, args) ==> c.Id() in r.0 && r.0.Keys == reg.Keys + {c.Id()}
    ensures Binds(c.descriptor, args) && c.Id() !in reg ==> r.0[c.Id()] == c.descriptor
    ensures forall k :: k in reg ==> r.0[k] == reg[k]
    ensures r.1.Ok? <==> Binds(c.descriptor, args) && c.descriptor.init(args).Ok?
    ensures r.1.Ok? && TagKey !in c.descriptor.init(args).value ==>
              r.1.value.Instance? && r.1.value.typeId == c.Id() &&
              TagKey in ToDict(r.1.value) && ToDict(r.1.value)[TagKey] == Str(c.Id())
  {
    if Binds(c.descriptor, args) then
      (Register(reg, c), Construct(c.Id(), c.descriptor, args))
    else
      (reg, Construct(c.Id(), c.descriptor, args))
  }

  /** `to_dict()`: the instance dictionary itself, every field with its
      value, the tag included. */
  function ToDict(x: Value): (r: map<string, Value>)
    requires x.Instance?
    ensures r.Keys == x.fields.Keys
    ensures forall k :: k in r ==> r[k] == x.fields[k]
  {
    x.fields
  }

  /** `to_dict()` of a freshly constructed instance carries the tag with
      the class identifier next to every field the constructor body set. */
  lemma ConstructedToDictCarriesTag(id: string, d: Descriptor, args: map<string, Value>)
    requires d.DataClass?
    requires Construct(id, d, args).Ok? && TagKey !in d.init(args).value
    ensures var r := ToDict(Construct(id, d, args).value);
            && TagKey in r && r[TagKey] == Str(id)
            && forall k :: k in d.init(args).value ==> k in r && r[k] == d.init(args).value[k]
  {
  }

  /** The default `from_dict`: construct from the parameter entries only.
      Everything but the tag comes from the constructor. */
  function FromDict(id: string, d: Descriptor, o: map<string, Value>): (r: Outcome<Value>)
    requires d.DataClass?
    ensures r.Ok? <==> d.required <= o.Keys * d.params && d.init(Filter(o, d.params)).Ok?
    ensures !(d.required <= o.Keys * d.params) ==>
              r == Err(MissingArguments(d.required - o.Keys * d.params))
    ensures d.required <= o.Keys * d.params && r.Err? ==> r.error == d.init(Filter(o, d.params)).error
    ensures r.Ok? ==>
              && r.value.Instance? && r.value.typeId == id
              && r.value.fields == map[TagKey := Str(id)] + d.init(Filter(o, d.params)).value
  {
    Construct(id, d, Filter(o, d.params))
  }

  /** `from_dict` reads nothing but the parameter entries: two mappings that
      agree on those give the same result, whatever their tag or other
      fields hold. Fields a constructor sets outside its parameters are
      therefore rebuilt by the constructor, not read from the mapping. */
  lemma FromDictReadsOnlyParameters(id: string, d: Descriptor, o1: map<string, Value>, o2: map<string, Value>)
    requires d.DataClass?
    requires forall k :: k in d.params ==> (k in o1 <==> k in o2)
    requires forall k :: k in d.params && k in o1 ==> o1[k] == o2[k]
    ensures FromDict(id, d, o1) == FromDict(id, d, o2)
  {
    assert Filter(o1, d.params) == Filter(o2, d.params);
  }
}
