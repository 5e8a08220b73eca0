# pytils JSON helpers — a Dafny model

This project models the tag-and-registry serialisation layer of
`pytils/json_helpers.py`. Objects of data classes (`JSONSerializable`) and
enumeration members (`JSONEnum`) are flattened to JSON mappings that carry
their type identifier (`module#qualname`) under the reserved key
`_cls_type_`. Decoding looks that identifier up in a process-wide registry
and rebuilds the object through the class's `from_dict`.

The model works on trees, not on text:

- `Results`: the `Result` and `Option` wrappers, and `Collect`, which runs
  a sequence of steps in order and stops at the first failure, as the
  JSON library does over a list's elements.
- `Trees`: a `Json` tree (null, bool, int, string, array, object as
  `map<string, Json>`). A `Value` tree adds `Instance(typeId, fields)`,
  `EnumMember(typeId, name, value)` and `Other` (an object with no JSON
  form). It also holds the `Error` kinds that Python raises.
- `Registry`: the `_type_map` as a `map<string, Descriptor>` that is
  passed around explicitly. A descriptor is either a data class (its
  constructor's parameter names, those without a default, and its
  constructor body as a function) or an enumeration (its members in declaration order). This module also
  holds the type identifier, how to split it back into scope and name,
  first-wins registration, and resolution.
- `DataContract`: construction (keyword binding first, then the tag and
  registration, then the body's fields), `to_dict`, and the default
  `from_dict`. That `from_dict` keeps only the parameter entries.
- `EnumContract`: per-member registration, `to_dict` (tag and name only),
  and `from_dict` by name lookup.
- `Codec`: the encoder hook `default`, the decoder hook
  `as_json_serializable`, and the two tree walks the JSON library performs
  around them. The decoder hook is applied bottom-up: an object's members
  are decoded before the hook sees the object.
- `RoundTrip`: what decoding an encoded value gives back. The general
  round-trip theorem, the corollary for instances built by a constructor
  that keeps its parameters, and the loss of non-parameter fields that
  the default `from_dict` implies.
- `Examples`: the classes of `test/test_json_helpers.py` as descriptors,
  with the behaviour its tests assert.

Failures are `Result` values, never preconditions: an unknown tag, an
undeclared member name, a missing `name` entry, an unexpected keyword, a
missing required parameter, a constructor that raises (`Raised`, with the
exception's class name), and a value that cannot be serialised.

Three details of the code shape the model:

- The decoder hook dispatches only when the value under `_cls_type_` is a
  string. Any other mapping passes through unchanged, even one that has
  the key (lines 96-101).
- A missing `name` entry is a `KeyError` on the mapping. An undeclared name
  is a lookup failure on the enumeration.
- `to_dict` returns the instance's own field dictionary, not a copy.
  Fields are immutable values here, so the two cannot be told apart.

## Model

| member | source | states |
|---|---|---|
| Results.Collect | pytils/json_helpers.py:84-85 | The walk over a list's elements, used by encoding and decoding alike: it succeeds iff every step succeeds, each value in its step's place. On failure the error is that of the first failing step, with every earlier step succeeding, as Python reports it. |
| Registry.TypeId | pytils/json_helpers.py:41-42 | The identifier is the module path, then `#`, then the qualified name, each part in its own position. `TypeIdSplits` and `TypeIdInjective` show the parts can be recovered, for data classes and enumerations alike (lines 67-68). |
| Registry.SplitTypeId | pytils/json_helpers.py:41-42 | An identifier splits iff it has a `#`. The scope part has no `#`, and joining the parts gives the identifier back. |
| Registry.TypeIdSplits | pytils/json_helpers.py:41-42 | Joining a `#`-free module path and a qualified name, then splitting, gives back both parts. |
| Registry.TypeIdInjective | pytils/json_helpers.py:67-68 | Classes with `#`-free module paths get the same identifier only if module and qualified name agree. |
| Registry.Register | pytils/json_helpers.py:10-13 | The key set grows by exactly the class's identifier. Existing entries are unchanged (first wins). A new identifier maps to the registered class. |
| Registry.RegisterIdempotent | pytils/json_helpers.py:12-13 | Registering the same class twice is the same as registering it once. |
| Registry.Resolve | pytils/json_helpers.py:99 | Succeeds iff the identifier is registered and returns its descriptor. Otherwise it fails with that identifier. |
| Registry.RegisterAllFirstWins | pytils/json_helpers.py:7-13 | After a sequence of registrations an identifier is known iff it was known before or some class carried it. An old entry is kept. A new entry is the first class carrying the identifier. |
| DataContract.Filter | pytils/json_helpers.py:53-54 | The result's keys are exactly the mapping's keys that are parameter names, with the same values. |
| DataContract.Construct | pytils/json_helpers.py:23-25 | A keyword outside the parameters fails first, carrying the set of those keywords. A missing parameter without a default fails next, carrying the set of those parameters. A constructor error surfaces as is. Success iff the arguments bind and the body succeeds. Then the instance has the class identifier, the body's fields plus the tag key, and the tag equals the identifier unless the body overwrote it. |
| DataContract.New | pytils/json_helpers.py:23-25 | Arguments that do not bind fail and leave the registry unchanged. Arguments that bind register the class exactly as `Register` does, so a new identifier maps to the class itself, even when the body then fails; no existing entry changes. The returned outcome is that of constructing the class with those arguments, and a successful result's `to_dict` holds the tag equal to the class identifier, unless the body set `_cls_type_` itself. |
| DataContract.ToDict | pytils/json_helpers.py:27-38 | The result has exactly the instance's fields, each with its value, the tag included. |
| DataContract.ConstructedToDictCarriesTag | pytils/json_helpers.py:23-38 | `to_dict` of a freshly constructed instance holds the tag with the class identifier and every field the constructor body set. |
| DataContract.FromDict | pytils/json_helpers.py:44-55 | Succeeds iff the mapping's parameter entries cover the required parameters and the constructor accepts them. Errors are a missing required parameter or the constructor's own, never an unexpected keyword. The result is an instance of the given identifier whose fields are the tag plus what the constructor sets from those entries. |
| DataContract.FromDictReadsOnlyParameters | pytils/json_helpers.py:53-55 | Two mappings that agree on the parameter entries give the same result. The tag and all other fields are ignored. |
| EnumContract.Lookup | pytils/json_helpers.py:72 | Finds a value iff some declared member has the name, and the pair it returns is a declared member. |
| EnumContract.LookupDeclared | pytils/json_helpers.py:72 | With distinct names, looking up a declared member's name returns that member's value. |
| EnumContract.DefineMembers | pytils/json_helpers.py:59-61 | Running the member constructor for the remaining declared members of an enumeration adds its identifier iff one remains, adds nothing else, keeps every existing entry, and a new entry is the enumeration. |
| EnumContract.Define | pytils/json_helpers.py:58-61 | Defining an enumeration with all its declared members is one registration of the class when it has a member, and changes nothing when it has none. |
| EnumContract.DefineMembersRegistersOnce | pytils/json_helpers.py:59-61 | Running the member constructor for every member is the same as one registration. An enumeration without members is never registered. |
| EnumContract.ToDict | pytils/json_helpers.py:63-64 | The encoded member has exactly the keys `_cls_type_` and `name`, holding the type identifier and the member name. |
| EnumContract.ValueNeverEmitted | pytils/json_helpers.py:63-64 | Members that differ only in their underlying value encode identically. |
| EnumContract.FromDict | pytils/json_helpers.py:70-72 | A missing `name` is a `KeyError`. Success iff `name` is a string naming a declared member, and then the result is that declared member of the given type. Any other name fails as an unknown member. |
| EnumContract.EnumRoundTrip | pytils/json_helpers.py:63-72 | Decoding the encoded form of a declared member gives back the same member. |
| Codec.EncoderDefault | pytils/json_helpers.py:78-81 | Succeeds iff the value is a data-class instance or an enumeration member. An instance gives its fields. A member gives exactly its `to_dict`, tag and name. Anything else is not serialisable, naming its kind. |
| Codec.Encode | pytils/json_helpers.py:78-85 | Encoding a value tree succeeds iff no part of it is unsupported, and fails only with the hook's not-serialisable error. A list gives an array of the same length, a mapping or instance an object with the same keys, a member an object with exactly the tag and `name`. |
| Codec.EncodeEntries | pytils/json_helpers.py:84-85 | Encoding a mapping or an instance's fields succeeds iff every entry encodes. Each output sits under its key. On failure the error is some failing entry's. |
| Codec.EncodeAppliesDefault | pytils/json_helpers.py:79-81 | A contract value encodes exactly as the mapping the hook returns for it. An unsupported value fails with the hook's error. |
| Codec.EncodedFormIsTagged | pytils/json_helpers.py:32-33 | An encoded instance or member is an object whose `_cls_type_` holds its type identifier. For a member, the object is exactly tag plus name. |
| Codec.ObjectHook | pytils/json_helpers.py:94-101 | A mapping without a string tag is returned unchanged. A string tag that is not registered fails with that identifier. Otherwise the result is exactly the registered class's `from_dict` applied to the whole mapping: an instance or member of that identifier. |
| Codec.Decode | pytils/json_helpers.py:91-101 | An array decodes to a list of the same length. A string value comes only from a JSON string. A plain dictionary in the result comes from an object with the same keys and never has a string tag, because every object passes the hook. A rebuilt instance or member comes from an object whose tag is the string naming its class. |
| Codec.DecodeMembers | pytils/json_helpers.py:91-92 | Decoding an object's members, before the hook sees it, succeeds iff every member decodes. Each value sits under its key. On failure the error is some failing member's. |
| Codec.DecodeUnknownTag | pytils/json_helpers.py:96-99 | An object whose string tag is unregistered fails to decode with that identifier. |
| Codec.DecodeUntagged | pytils/json_helpers.py:91-101 | JSON with no string-tagged object decodes to its plain value under any registry. |
| Codec.EncodePlain | pytils/json_helpers.py:84-85 | Plain data encodes back to the JSON it denotes. |
| RoundTrip.EntriesRoundTrip | pytils/json_helpers.py:91-92 | The members of a mapping whose values round-trip decode back to the same mapping before the hook sees it (bottom-up decoding). |
| RoundTrip.ItemsRoundTrip | pytils/json_helpers.py:84-92 | A list whose elements round-trip encodes to an array that decodes back to the same list, element by element. |
| RoundTrip.DecodeRebuildsInstance | pytils/json_helpers.py:96-100 | Decoding an encoded instance of a registered data class gives what that class's `from_dict` builds from the instance's fields, with nested values already rebuilt. |
| RoundTrip.RoundTripValue | test/test_json_helpers.py:51-74 | Every reconstructible value encodes, and decoding the result gives the same value, including nested instances and members. |
| RoundTrip.FromDictRebuildsConstructed | pytils/json_helpers.py:53-55 | For a class whose constructor keeps its parameters, `from_dict` of a constructed instance's fields gives that instance. |
| RoundTrip.ConstructedRoundTrip | test/test_json_helpers.py:51-55 | An instance built by such a constructor from reconstructible values, with its class registered, is reconstructible and round-trips. |
| RoundTrip.NonParameterChangeIsLost | pytils/json_helpers.py:53-55 | Changing a non-parameter field of a reconstructible instance does not survive: decoding gives back the original. |
| Examples.TestRegistryHoldsClasses | test/test_json_helpers.py:12-47 | After the test classes are registered, each test class's identifier resolves to that class. |
| Examples.ExampleReconstructible | test/test_json_helpers.py:29-34 | `ExampleJSONSerializable(s)` is what its constructor builds, for any string, and it is reconstructible. |
| Examples.SimpleRoundTrip | test/test_json_helpers.py:51-55 | An example instance round-trips for every string. This includes the three in the stream test. |
| Examples.TestRegistrySimpleRoundTrip | test/test_json_helpers.py:51-55 | Under the registry that the test module's class definitions build, an example instance round-trips for every string. |
| Examples.SubclassRoundTrip | test/test_json_helpers.py:57-61 | The subclass instance, with its body-set `child` field, round-trips. |
| Examples.MemberObjectRoundTrip | test/test_json_helpers.py:63-68 | The instance holding two example instances round-trips, and its `left` and `right` are those instances. |
| Examples.WithEnumRoundTrip | test/test_json_helpers.py:70-74 | The instance holding members of two enumerations round-trips. |
| Examples.ChangedFieldIsLost | pytils/json_helpers.py:53-55 | For any example instance that round-trips, replacing its `list` field with another value does not survive decoding: the original comes back. |
| Examples.ExampleListIsConstant | pytils/json_helpers.py:53-55 | Every example instance that `from_dict` builds holds the constructor's fixed list. |
| Examples.UnexpectedKeywordRegistersNothing | pytils/json_helpers.py:23-25 | Calling the example class with an undeclared keyword fails, naming exactly that keyword, and leaves the registry as it was. |
| Examples.DeclaredKeywordRegisters | pytils/json_helpers.py:23-25 | Calling the example class with its declared keyword registers it and builds the expected instance. |
| Examples.RaisingBodyStillRegisters | pytils/json_helpers.py:23-25 | A constructor body that raises after `super().__init__()` surfaces its exception, and the class is registered all the same. |
| Examples.UnknownTagFails | pytils/json_helpers.py:99 | A payload tagged with an identifier no test class has fails with that identifier. |

## Left out

- JSON text is not modelled. `dumps` and `loads` (lines 84-85 and
  104-105) are library code; the model keeps only the tree walks they
  perform with the hooks.
- Python reflection is replaced by declarations. `inspect.signature`
  becomes a declared set of parameter names. `__dict__` becomes the
  instance's field map. `__module__` and `__qualname__` become the class's
  scope and qualified-name strings.
- Implicit registration is not modelled. Registration by class definition
  or first construction is modelled as explicit calls that thread the
  registry: `Register`, `DataContract.New`, `EnumContract.DefineMembers`.
  Decoding treats the registry as read-only. Its `from_dict` constructs a
  class that is already registered, which changes nothing. A constructor
  body that builds instances of other classes would register those classes
  too, and that is not modelled.
- DataContract.Construct and DataContract.New assume that a constructor
  body calls `super().__init__()` before anything else, as every test
  class does. A body that raises before that call, or never makes it,
  registers nothing and sets no tag in Python. A body that sets
  `_cls_type_` before the call has it overwritten. None of those orders
  is modelled.
- DataContract.Construct: the error for unexpected keywords or missing
  parameters carries the set of offending names. CPython's message names
  only the first unexpected keyword, or lists the missing ones as text.
- Aliasing between `to_dict` and the live `__dict__` is not modelled,
  because values are immutable.
- Custom `to_dict`/`from_dict` overrides are not modelled. Only the
  default contract is.
- Floats, non-string object keys, tuples, constructors taking `**kwargs`
  and circular references are not modelled. Value trees are finite.
- Enumeration aliases are not modelled. An unhashable `name` value (a
  `TypeError` in Python) is reported as an unknown member.
- Codec.EncodeEntries: when several entries of one mapping fail, the
  reported error is one of theirs, not necessarily the first in insertion
  order as in Python, because maps have no key order here. Lists keep
  Python's order.
- Codec.DecodeMembers: same as Codec.EncodeEntries, for the members of
  one JSON object.
- Argument binding is by keyword only. Positional arguments, `*args` and
  keyword-only markers are not modelled. Default values are supplied
  inside the modelled constructor body, which receives only the keywords
  given.
- The jsonlines stream adapter, `setup.py` packaging and thread safety of
  the global registry are not modelled.
