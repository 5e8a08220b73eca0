/** The classes the test suite defines, as descriptors, and the behaviour
    its tests assert, stated for them. */
module Examples {
  import opened Results
  import opened Trees
  import opened Registry
  import DataContract
  import EnumContract
  import opened Codec
  import opened RoundTrip

  const Scope: string := "test.test_json_helpers"

  /** `ExampleEnum`: members numbered by `auto()`. */
  const ExampleEnum: Class := Class(Scope, "ExampleEnum", EnumClass([("ONE", Int(1)), ("TWO", Int(2))]))

  /** `NamedEnum`: members with string values. */
  const NamedEnum: Class := Class(Scope, "NamedEnum", EnumClass([("ONE", Str("bar")), ("TWO", Str("baz"))]))

  /** The fields `ExampleJSONSerializable.__init__` sets besides the tag. */
  function ExampleFields(s: Value): map<string, Value> {
    map[
      "string" := s,
      "list" := List([Str("hello"), Str("world")]),
      "dict" := Dict(map["fruit" := Str("banana")])
    ]
  }

  function ExampleInit(args: map<string, Value>): Outcome<map<string, Value>> {
    Ok(ExampleFields(if "string" in args then args["string"] else Str("bar")))
  }

  /** `ExampleJSONSerializable(string="bar")`. */
  const Example: Class := Class(Scope, "ExampleJSONSerializable", DataClass({"string"}, {}, ExampleInit))

  /** `ExampleJSONSerializable(s)` as an instance. */
  function ExampleInstance(s: Value): Value {
    Instance(Example.Id(), map[TagKey := Str(Example.Id())] + ExampleFields(s))
  }

  function SubclassInit(args: map<string, Value>): Outcome<map<string, Value>> {
    Ok(ExampleFields(Str("bar"))["child" := Str("child")])
  }

  /** `ExampleSubclassJSONSerializable()`: no parameters; it sets `child`
      in its body. */
  const Subclass: Class := Class(Scope, "ExampleSubclassJSONSerializable", DataClass({}, {}, SubclassInit))

  function MemberObjectInit(args: map<string, Value>): Outcome<map<string, Value>> {
    Ok(map["left" := ExampleInstance(Str("foo")), "right" := ExampleInstance(Str("bar"))])
  }

  /** `ExampleMemberObjectJSONSerializable()`: two nested instances. */
  const MemberObject: Class := Class(Scope, "ExampleMemberObjectJSONSerializable", DataClass({}, {}, MemberObjectInit))

  function WithEnumInit(args: map<string, Value>): Outcome<map<string, Value>> {
    Ok(map["enum" := EnumMember(ExampleEnum.Id(), "TWO", Int(2)), "other" := EnumMember(NamedEnum.Id(), "TWO", Str("baz"))])
  }

  /** `ExampleWithEnumExampleJSONSerializable(arg="bar")`: the parameter is
      not stored; two enumeration members are. */
  const WithEnum: Class := Class(Scope, "ExampleWithEnumExampleJSONSerializable", DataClass({"arg"}, {}, WithEnumInit))

  const TestClasses: seq<Class> := [ExampleEnum, NamedEnum, Example, Subclass, MemberObject, WithEnum]

  /** The registry once the test module's classes are defined and used. */
  function TestRegistry(): TypeMap {
    RegisterAll(map[], TestClasses)
  }

  /** Every test class is registered under its own identifier. */
  lemma TestRegistryHoldsClasses(i: nat)
    requires i < |TestClasses|
    ensures TestClasses[i].Id() in TestRegistry()
    ensures TestRegistry()[TestClasses[i].Id()] == TestClasses[i].descriptor
  {
    var c := TestClasses[i];
    // The qualified-name lengths of the test classes, in order: all
    // distinct, so no two test identifiers coincide.
    var lengths := [11, 9, 23, 31, 35, 38];
    assert forall j :: 0 <= j < |TestClasses| ==>
             TestClasses[j].scope == Scope && |TestClasses[j].qualName| == lengths[j];
    forall j | 0 <= j < i ensures TestClasses[j].Id() != c.Id() {
      assert |TestClasses[j].Id()| != |c.Id()|;
    }
    FirstDeclaredAt(TestClasses, i);
    RegisterAllFirstWins(map[], TestClasses, c.Id());
  }

  /** `reg` resolves the identifier of `c` to `c`. */
  ghost predicate Knows(reg: TypeMap, c: Class) {
    c.Id() in reg && reg[c.Id()] == c.descriptor
  }

  ghost predicate KnowsTestClasses(reg: TypeMap) {
    forall i :: 0 <= i < |TestClasses| ==> Knows(reg, TestClasses[i])
  }

  lemma TestRegistryKnowsTestClasses()
    ensures KnowsTestClasses(TestRegistry())
  {
    forall i | 0 <= i < |TestClasses| ensures Knows(TestRegistry(), TestClasses[i]) {
      TestRegistryHoldsClasses(i);
    }
  }

  /** The example data classes keep what they are given. */
  lemma ExamplesStoreParameters()
    ensures StoresParameters(Example.descriptor)
    ensures StoresParameters(Subclass.descriptor)
    ensures StoresParameters(MemberObject.descriptor)
    ensures StoresParameters(WithEnum.descriptor)
  {
  }

  lemma ExampleFieldsReconstructible(reg: TypeMap, s: string)
    ensures forall k :: k in ExampleFields(Str(s)) ==> Reconstructible(reg, ExampleFields(Str(s))[k])
  {
  }

  /** An example instance, whatever its string, is built by its
      constructor and survives encoding and decoding. */
  lemma ExampleReconstructible(reg: TypeMap, s: string)
    requires Knows(reg, Example)
    ensures DataContract.Construct(Example.Id(), Example.descriptor, map["string" := Str(s)]) == Ok(ExampleInstance(Str(s)))
    ensures Reconstructible(reg, ExampleInstance(Str(s)))
  {
    ExamplesStoreParameters();
    ExampleFieldsReconstructible(reg, s);
    ConstructedRoundTrip(reg, Example.Id(), Example.descriptor, map["string" := Str(s)]);
  }

  /** `test_simple` and the stream scenario: an example instance, whatever
      its string, decodes back equal. */
  lemma SimpleRoundTrip(reg: TypeMap, s: string)
    requires Knows(reg, Example)
    ensures Encode(ExampleInstance(Str(s))).Ok?
    ensures Decode(reg, Encode(ExampleInstance(Str(s))).value) == Ok(ExampleInstance(Str(s)))
  {
    ExampleReconstructible(reg, s);
    RoundTripValue(reg, ExampleInstance(Str(s)));
  }

  /** `test_subclass`: the field the subclass sets in its body survives,
      because its constructor sets it again. */
  lemma SubclassRoundTrip(reg: TypeMap)
    requires Knows(reg, Subclass)
    ensures DataContract.Construct(Subclass.Id(), Subclass.descriptor, map[]).Ok?
    ensures var x := DataContract.Construct(Subclass.Id(), Subclass.descriptor, map[]).value;
            && x.fields["child"] == Str("child")
            && Encode(x).Ok?
            && Decode(reg, Encode(x).value) == Ok(x)
  {
    ExamplesStoreParameters();
    ExampleFieldsReconstructible(reg, "bar");
    ConstructedRoundTrip(reg, Subclass.Id(), Subclass.descriptor, map[]);
  }

  lemma MemberObjectFieldsReconstructible(reg: TypeMap)
    requires Knows(reg, Example)
    ensures MemberObjectInit(map[]).Ok?
    ensures forall k :: k in MemberObjectInit(map[]).value ==> Reconstructible(reg, MemberObjectInit(map[]).value[k])
  {
    var own := MemberObjectInit(map[]).value;
    forall k | k in own ensures Reconstructible(reg, own[k]) {
      if k == "left" {
        ExampleReconstructible(reg, "foo");
      } else {
        ExampleReconstructible(reg, "bar");
      }
    }
  }

  /** `test_member_objects_subclass`: both nested instances come back. */
  lemma MemberObjectRoundTrip(reg: TypeMap)
    requires Knows(reg, Example) && Knows(reg, MemberObject)
    ensures DataContract.Construct(MemberObject.Id(), MemberObject.descriptor, map[]).Ok?
    ensures var x := DataContract.Construct(MemberObject.Id(), MemberObject.descriptor, map[]).value;
            && x.fields["left"] == ExampleInstance(Str("foo"))
            && x.fields["right"] == ExampleInstance(Str("bar"))
            && Encode(x).Ok?
            && Decode(reg, Encode(x).value) == Ok(x)
  {
    ExamplesStoreParameters();
    MemberObjectFieldsReconstructible(reg);
    var own := MemberObjectInit(map[]).value;
    assert DataContract.Binds(MemberObject.descriptor, map[]);
    var x := DataContract.Construct(MemberObject.Id(), MemberObject.descriptor, map[]).value;
    assert x.fields["left"] == own["left"] && x.fields["right"] == own["right"];
    ConstructedRoundTrip(reg, MemberObject.Id(), MemberObject.descriptor, map[]);
  }

  /** `test_enum`: both members come back as the declared members. */
  lemma WithEnumRoundTrip(reg: TypeMap)
    requires Knows(reg, ExampleEnum) && Knows(reg, NamedEnum) && Knows(reg, WithEnum)
    ensures DataContract.Construct(WithEnum.Id(), WithEnum.descriptor, map[]).Ok?
    ensures var x := DataContract.Construct(WithEnum.Id(), WithEnum.descriptor, map[]).value;
            && Encode(x).Ok?
            && Decode(reg, Encode(x).value) == Ok(x)
  {
    ExamplesStoreParameters();
    var own := WithEnumInit(map[]).value;
    assert Reconstructible(reg, own["enum"]);
    assert Reconstructible(reg, own["other"]);
    assert forall k :: k in own ==> Reconstructible(reg, own[k]);
    ConstructedRoundTrip(reg, WithEnum.Id(), WithEnum.descriptor, map[]);
  }

  /** Every example instance `from_dict` builds holds the constant list
      its constructor sets. */
  lemma ExampleListIsConstant(x: Value)
    requires x.Instance?
    requires DataContract.FromDict(Example.Id(), Example.descriptor, x.fields) == Ok(x)
    ensures "list" in x.fields && x.fields["list"] == List([Str("hello"), Str("world")])
  {
    var own := ExampleInit(DataContract.Filter(x.fields, {"string"})).value;
    assert "list" in own && own["list"] == List([Str("hello"), Str("world")]);
  }

  /** The loss of non-parameter fields that the default `from_dict`
      implies, for the example class: replacing the `list`
      field of any example instance that round-trips does not survive
      decoding; the constructor's list comes back. */
  lemma ChangedFieldIsLost(reg: TypeMap, x: Value, w: Value)
    requires Knows(reg, Example)
    requires x.Instance? && x.typeId == Example.Id() && Reconstructible(reg, x)
    requires Reconstructible(reg, w)
    requires w != List([Str("hello"), Str("world")])
    ensures var changed := x.(fields := x.fields["list" := w]);
            && Encode(changed).Ok?
            && Decode(reg, Encode(changed).value) == Ok(x)
            && x != changed
  {
    ExampleListIsConstant(x);
    NonParameterChangeIsLost(reg, x, "list", w);
    assert x.fields["list"] != x.fields["list" := w]["list"];
  }

  /** No test class has an identifier shorter than its scope plus the
      separator and the shortest class name. */
  lemma ShortIdUnknown(id: string)
    requires |id| < |Scope| + 10
    ensures id !in TestRegistry()
  {
    RegisterAllFirstWins(map[], TestClasses, id);
    forall i | 0 <= i < |TestClasses| ensures TestClasses[i].Id() != id {
      assert |TestClasses[i].Id()| >= |Scope| + 10;
    }
  }

  /** Calling the example class with a keyword it does not declare raises
      before its constructor runs: the registry is left as it was, even
      when the class was never registered. */
  lemma UnexpectedKeywordRegistersNothing(reg: TypeMap)
    ensures DataContract.New(reg, Example, map["foo" := Int(1)])
            == (reg, Err(UnexpectedArguments({"foo"})))
  {
    var args := map["foo" := Int(1)];
    assert "foo" in args.Keys - Example.descriptor.params;
    assert args.Keys - Example.descriptor.params == {"foo"};
  }

  /** Called with its declared keyword, the example class is registered. */
  lemma DeclaredKeywordRegisters(reg: TypeMap)
    ensures var r := DataContract.New(reg, Example, map["string" := Str("x")]);
            && r.0.Keys == reg.Keys + {Example.Id()}
            && r.1 == Ok(ExampleInstance(Str("x")))
  {
    var args := map["string" := Str("x")];
    assert args.Keys == {"string"};
    var x := DataContract.Construct(Example.Id(), Example.descriptor, args).value;
    assert x.fields == ExampleInstance(Str("x")).fields;
  }

  /** `test_simple` against the registry the test module builds. */
  lemma TestRegistrySimpleRoundTrip(s: string)
    ensures Encode(ExampleInstance(Str(s))).Ok?
    ensures Decode(TestRegistry(), Encode(ExampleInstance(Str(s))).value) == Ok(ExampleInstance(Str(s)))
  {
    TestRegistryKnowsTestClasses();
    assert Knows(TestRegistry(), TestClasses[2]);
    SimpleRoundTrip(TestRegistry(), s);
  }

  function FailingInit(args: map<string, Value>): Outcome<map<string, Value>> {
    Err(Raised("ValueError"))
  }

  /** A class whose constructor body raises `ValueError` after
      `super().__init__()`. */
  const Failing: Class := Class(Scope, "Failing", DataClass({}, {}, FailingInit))

  /** Its exception surfaces as is, and the class is registered anyway,
      because registration happens before the body raises. */
  lemma RaisingBodyStillRegisters(reg: TypeMap)
    requires Failing.Id() !in reg
    ensures var r := DataContract.New(reg, Failing, map[]);
            && r.1 == Err(Raised("ValueError"))
            && Failing.Id() in r.0 && r.0[Failing.Id()] == Failing.descriptor
  {
    assert DataContract.Binds(Failing.descriptor, map[]);
  }

  /** Unknown-tag failure: a payload whose class this process never
      registered does not decode. */
  lemma UnknownTagFails()
    ensures Decode(TestRegistry(), JObject(map[TagKey := JString("gone#Gone"), "string" := JString("x")]))
            == Err(UnknownType("gone#Gone"))
  {
    ShortIdUnknown("gone#Gone");
    var m := map[TagKey := JString("gone#Gone"), "string" := JString("x")];
    assert forall k :: k in m ==> Decode(TestRegistry(), m[k]).Ok?;
    DecodeUnknownTag(TestRegistry(), m, "gone#Gone");
  }
}
