/** What decoding an encoded value gives back. A data-class instance is
    rebuilt by its class's constructor from the parameter entries it holds,
    after its nested values have been rebuilt; so it comes back equal
    exactly when that rebuild reproduces it. */
module RoundTrip {
  import opened Results
  import opened Trees
  import opened Registry
  import DataContract
  import EnumContract
  import opened Codec

  /** Values that survive encoding and decoding against `reg`: every
      instance carries its own identifier as tag, names a registered data
      class, and is what that class's `from_dict` builds from its fields;
      every enumeration member is the registered member of its name; no
      plain dictionary has a string under the reserved key; nothing is
      unsupported. */
  ghost predicate Reconstructible(reg: TypeMap, v: Value)
    decreases v
  {
    match v
    case List(items) => forall i :: 0 <= i < |items| ==> Reconstructible(reg, items[i])
    case Dict(m) => (forall k :: k in m ==> Reconstructible(reg, m[k])) && !Tagged(m)
    case Instance(id, fields) =>
      && (forall k :: k in fields ==> Reconstructible(reg, fields[k]))
      && Tagged(fields) && fields[TagKey].s == id
      && id in reg && reg[id].DataClass?
      && DataContract.FromDict(id, reg[id], fields) == Ok(v)
    case EnumMember(id, name, value) =>
      id in reg && reg[id].EnumClass? && EnumContract.Lookup(reg[id].members, name) == Some(value)
    case Other(_) => false
    case _ => true
  }

  /** The entries of a mapping whose values round-trip are printed and
      parsed back unchanged, before the decoder hook sees them. */
  lemma {:induction false} EntriesRoundTrip(reg: TypeMap, v: Value)
    requires v.Dict? || v.Instance?
    requires forall k :: k in Entries(v) ==> Reconstructible(reg, Entries(v)[k])
    ensures EncodeEntries(v).Ok? && EncodeEntries(v).value.JObject?
    ensures DecodeMembers(reg, EncodeEntries(v).value) == Ok(Entries(v))
    decreases v, 0
  {
    var m := Entries(v);
    forall k | k in m ensures Encode(m[k]).Ok? {
      RoundTripValue(reg, m[k]);
    }
    var e := EncodeEntries(v).value;
    assert e.members.Keys == m.Keys;
    forall k | k in e.members ensures Decode(reg, e.members[k]) == Ok(m[k]) {
      RoundTripValue(reg, m[k]);
      assert Encode(m[k]) == Ok(e.members[k]);
    }
    var d := DecodeMembers(reg, e);
    assert d.Ok? && d.value.Keys == m.Keys;
    assert d.value == m;
  }

  /** The list case of the round trip: every element comes back in place. */
  lemma {:induction false} ItemsRoundTrip(reg: TypeMap, v: Value)
    requires v.List?
    requires forall i :: 0 <= i < |v.items| ==> Reconstructible(reg, v.items[i])
    ensures Encode(v).Ok?
    ensures Decode(reg, Encode(v).value) == Ok(v)
    decreases v, 0
  {
    var items := v.items;
    forall i | 0 <= i < |items| ensures Encode(items[i]).Ok? && Decode(reg, Encode(items[i]).value) == Ok(items[i]) {
      RoundTripValue(reg, items[i]);
    }
    var e := Encode(v).value;
    assert forall i :: 0 <= i < |items| ==> Decode(reg, e.items[i]) == Ok(items[i]);
    assert Decode(reg, e).value.items == items;
  }

  /** Decoding an encoded instance of a registered data class yields what
      the class's `from_dict` builds from the instance's fields. Fields the
      constructor sets outside its parameters come from the constructor,
      not from the payload. */
  lemma DecodeRebuildsInstance(reg: TypeMap, v: Value)
    requires v.Instance?
    requires forall k :: k in v.fields ==> Reconstructible(reg, v.fields[k])
    requires Tagged(v.fields) && v.fields[TagKey].s == v.typeId
    requires v.typeId in reg && reg[v.typeId].DataClass?
    ensures Encode(v).Ok?
    ensures Decode(reg, Encode(v).value) == DataContract.FromDict(v.typeId, reg[v.typeId], v.fields)
    decreases v, 1
  {
    assert Entries(v) == v.fields;
    EntriesRoundTrip(reg, v);
  }

  /** Round trip: a reconstructible value encodes, and decoding the result
      gives the value back, nested instances and members included. */
  lemma {:induction false} RoundTripValue(reg: TypeMap, v: Value)
    requires Reconstructible(reg, v)
    ensures Encode(v).Ok?
    ensures Decode(reg, Encode(v).value) == Ok(v)
    decreases v, 2
  {
    match v
    case List(items) =>
      ItemsRoundTrip(reg, v);
    case Dict(m) =>
      EntriesRoundTrip(reg, v);
    case Instance(id, fields) =>
      DecodeRebuildsInstance(reg, v);
    case EnumMember(id, name, value) =>
      var e := Encode(v).value;
      var o := map[TagKey := Str(id), NameKey := Str(name)];
      assert DecodeMembers(reg, e).value == o;
    case _ =>
  }

  /** A data class whose constructor keeps what it is given: it never sets
      the reserved key, it stores every required parameter under its own
      name, and called again with the parameter entries of the fields it
      produced, it produces the same fields. This is the case of
      a class whose state is a deterministic function of its constructor
      parameters. */
  ghost predicate StoresParameters(d: Descriptor)
    requires d.DataClass?
  {
    TagKey !in d.params && forall args :: KeepsArguments(d, args)
  }

  /** Called with `args`, the constructor of `d` either fails (to bind, or
      in its body) or yields fields without the tag, holding every required
      parameter, that it yields again from their parameter entries. */
  ghost predicate KeepsArguments(d: Descriptor, args: map<string, Value>)
    requires d.DataClass?
  {
    DataContract.Binds(d, args) && d.init(args).Ok? ==>
      && TagKey !in d.init(args).value
      && d.required <= d.init(args).value.Keys
      && d.init(DataContract.Filter(d.init(args).value, d.params)) == d.init(args)
  }

  /** The default `from_dict` rebuilds an instance of such a class from
      its own fields. */
  lemma FromDictRebuildsConstructed(id: string, d: Descriptor, args: map<string, Value>)
    requires d.DataClass? && StoresParameters(d)
    requires DataContract.Construct(id, d, args).Ok?
    ensures var x := DataContract.Construct(id, d, args).value;
            DataContract.FromDict(id, d, x.fields) == Ok(x)
  {
    var own := d.init(args).value;
    var x := DataContract.Construct(id, d, args).value;
    assert KeepsArguments(d, args);
    assert x.fields == map[TagKey := Str(id)] + own;
    var params := DataContract.Filter(x.fields, d.params);
    assert params == DataContract.Filter(own, d.params);
    assert d.init(params) == Ok(own);
  }

  /** An instance built by such a constructor, from reconstructible values,
      survives encoding and decoding when its class is registered under its
      identifier. */
  lemma ConstructedRoundTrip(reg: TypeMap, id: string, d: Descriptor, args: map<string, Value>)
    requires d.DataClass? && StoresParameters(d)
    requires id in reg && reg[id] == d
    requires DataContract.Construct(id, d, args).Ok?
    requires forall k :: k in d.init(args).value ==> Reconstructible(reg, d.init(args).value[k])
    ensures Reconstructible(reg, DataContract.Construct(id, d, args).value)
    ensures Encode(DataContract.Construct(id, d, args).value).Ok?
    ensures Decode(reg, Encode(DataContract.Construct(id, d, args).value).value)
            == DataContract.Construct(id, d, args)
  {
    var own := d.init(args).value;
    var x := DataContract.Construct(id, d, args).value;
    FromDictRebuildsConstructed(id, d, args);
    assert KeepsArguments(d, args);
    forall k | k in x.fields ensures Reconstructible(reg, x.fields[k]) {
      if k != TagKey {
        assert x.fields[k] == own[k];
      }
    }
    RoundTripValue(reg, x);
  }

  /** A field that is not a constructor parameter, changed after
      construction, is lost: decoding the changed instance gives the
      original back. */
  lemma NonParameterChangeIsLost(reg: TypeMap, v: Value, k: string, w: Value)
    requires Reconstructible(reg, v) && v.Instance?
    requires k != TagKey && k !in reg[v.typeId].params
    requires Reconstructible(reg, w)
    ensures Encode(v.(fields := v.fields[k := w])).Ok?
    ensures Decode(reg, Encode(v.(fields := v.fields[k := w])).value) == Ok(v)
  {
    var changed := v.(fields := v.fields[k := w]);
    assert forall j :: j in changed.fields ==> Reconstructible(reg, changed.fields[j]);
    DecodeRebuildsInstance(reg, changed);
    DataContract.FromDictReadsOnlyParameters(v.typeId, reg[v.typeId], changed.fields, v.fields);
  }
}
