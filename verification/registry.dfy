/** The process-wide type registry (`_type_map` and `json_register_class`)
    and the type identifier `module#qualname` it is keyed by. The registry
    is a value threaded through the operations that change it. */
module Registry {
  import opened Results
  import opened Trees

  /** What the registry knows about a class. A data class declares its
      constructor's parameter names, those of them without a default, and
      its constructor body: a map from bound keyword arguments to the
      fields the body sets (or the error it raises). An enumeration
      declares its members, names with values, in declaration order. */
  datatype Descriptor =
    | DataClass(params: set<string>, required: set<string>,
                init: map<string, Value> -> Outcome<map<string, Value>>)
    | EnumClass(members: seq<(string, Value)>)

  /** A class as the program defines it: where it is defined (`__module__`),
      its qualified name (`__qualname__`), and its descriptor. */
  datatype Class = Class(scope: string, qualName: string, descriptor: Descriptor) {
    /** `fqcn()`. */
    function Id(): string {
      TypeId(scope, qualName)
    }
  }

  type TypeMap = map<string, Descriptor>

  const Separator: char := '#'

  /** The type identifier: scope and qualified name joined by the
      separator, which sits right after the scope. */
  function TypeId(scope: string, qualName: string): (id: string)
    ensures |id| == |scope| + 1 + |qualName|
    ensures id[..|scope|] == scope && id[|scope|] == Separator && id[|scope| + 1..] == qualName
  {
    scope + [Separator] + qualName
  }

  /** The position of the first `c` in `s`, if any. */
  function FirstIndex(s: string, c: char): (r: Option<nat>)
    ensures r.None? <==> c !in s
    ensures r.Some? ==> r.value < |s| && s[r.value] == c && c !in s[..r.value]
  {
    if s == [] then None
    else if s[0] == c then Some(0)
    else match FirstIndex(s[1..], c)
      case None => None
      case Some(i) =>
        assert s[..i + 1] == [s[0]] + s[1..][..i];
        Some(i + 1)
  }

  /** Reads a type identifier back into scope and qualified name, splitting
      at the first separator. */
  function SplitTypeId(id: string): (r: Option<(string, string)>)
    ensures r.None? <==> Separator !in id
    ensures r.Some? ==> Separator !in r.value.0 && TypeId(r.value.0, r.value.1) == id
  {
    match FirstIndex(id, Separator)
    case None => None
    case Some(i) =>
      assert id == id[..i] + [Separator] + id[i + 1..];
      Some((id[..i], id[i + 1..]))
  }

  /** Splitting undoes joining whenever the scope has no separator, as a
      Python module path never does. */
  lemma TypeIdSplits(scope: string, qualName: string)
    requires Separator !in scope
    ensures SplitTypeId(TypeId(scope, qualName)) == Some((scope, qualName))
  {
    var id := TypeId(scope, qualName);
    assert id[|scope|] == Separator;
    assert id[..|scope|] == scope;
    assert id[|scope| + 1..] == qualName;
  }

  /** Two classes whose scopes hold no separator get the same identifier
      only if they agree on scope and qualified name. */
  lemma TypeIdInjective(s1: string, q1: string, s2: string, q2: string)
    requires Separator !in s1 && Separator !in s2
    requires TypeId(s1, q1) == TypeId(s2, q2)
    ensures s1 == s2 && q1 == q2
  {
    TypeIdSplits(s1, q1);
    TypeIdSplits(s2, q2);
  }

  /** `json_register_class`: first registration wins. */
  function Register(reg: TypeMap, c: Class): (r: TypeMap)
    ensures r.Keys == reg.Keys + {c.Id()}
    ensures forall k :: k in reg ==> r[k] == reg[k]
    ensures c.Id() !in reg ==> r[c.Id()] == c.descriptor
  {
    if c.Id() in reg then reg else reg[c.Id() := c.descriptor]
  }

  /** Registering a class a second time changes nothing. */
  lemma RegisterIdempotent(reg: TypeMap, c: Class)
    ensures Register(Register(reg, c), c) == Register(reg, c)
  {
  }

  /** `_type_map[id]`: the descriptor, or `KeyError` for an unknown identifier. */
  function Resolve(reg: TypeMap, id: string): (r: Outcome<Descriptor>)
    ensures r.Ok? <==> id in reg
    ensures r.Ok? ==> r.value == reg[id]
    ensures r.Err? ==> r.error == UnknownType(id)
  {
    if id in reg then Ok(reg[id]) else Err(UnknownType(id))
  }

  /** Registers the classes in order, as successive definitions or first
      constructions do. */
  function RegisterAll(reg: TypeMap, cs: seq<Class>): TypeMap
    decreases |cs|
  {
    if cs == [] then reg else RegisterAll(Register(reg, cs[0]), cs[1..])
  }

  /** The descriptor of the first class in `cs` with identifier `id`. */
  function FirstDeclared(cs: seq<Class>, id: string): (r: Option<Descriptor>)
    ensures r.None? <==> forall i :: 0 <= i < |cs| ==> cs[i].Id() != id
  {
    if cs == [] then None
    else if cs[0].Id() == id then Some(cs[0].descriptor)
    else FirstDeclared(cs[1..], id)
  }

  /** The first class carrying `id` is the one `FirstDeclared` reports. */
  lemma {:induction false} FirstDeclaredAt(cs: seq<Class>, i: nat)
    requires i < |cs|
    requires forall j :: 0 <= j < i ==> cs[j].Id() != cs[i].Id()
    ensures FirstDeclared(cs, cs[i].Id()) == Some(cs[i].descriptor)
    decreases i
  {
    if i > 0 {
      assert cs[0].Id() != cs[i].Id();
      assert cs[1..][i - 1] == cs[i];
      FirstDeclaredAt(cs[1..], i - 1);
    }
  }

  /** After a sequence of registrations an identifier is known iff it was
      known before or some class carried it; an entry already present is
      kept, and a new one belongs to the first class that carried it. */
  lemma {:induction false} RegisterAllFirstWins(reg: TypeMap, cs: seq<Class>, id: string)
    ensures id in RegisterAll(reg, cs) <==> id in reg || FirstDeclared(cs, id).Some?
    ensures id in reg ==> RegisterAll(reg, cs)[id] == reg[id]
    ensures id !in reg && FirstDeclared(cs, id).Some? ==>
              RegisterAll(reg, cs)[id] == FirstDeclared(cs, id).value
    decreases |cs|
  {
    if cs != [] {
      RegisterAllFirstWins(Register(reg, cs[0]), cs[1..], id);
    }
  }
}
