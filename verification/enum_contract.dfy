/** The enumeration contract (`JSONEnum`): each declared member registers
    its type, `to_dict` emits the tag and the member's name (never its
    value), and `from_dict` looks the member up by name. */
module EnumContract {
  import opened Results
  import opened Trees
  import opened Registry

  /** The value of the first declared member called `name`. */
  function Lookup(members: seq<(string, Value)>, name: string): (r: Option<Value>)
    ensures r.None? <==> forall i :: 0 <= i < |members| ==> members[i].0 != name
    ensures r.Some? ==> (name, r.value) in members
  {
    if members == [] then None
    else if members[0].0 == name then Some(members[0].1)
    else Lookup(members[1..], name)
  }

  /** Member names of one enumeration are distinct. */
  predicate UniqueNames(members: seq<(string, Value)>) {
    forall i, j :: 0 <= i < j < |members| ==> members[i].0 != members[j].0
  }

  /** With distinct names, looking up a declared member's name finds that
      very member. */
  lemma LookupDeclared(members: seq<(string, Value)>, i: nat)
    requires UniqueNames(members)
    requires i < |members|
    ensures Lookup(members, members[i].0) == Some(members[i].1)
  {
  }

  /** Defining an enumeration runs the member constructor once per declared
      member, and each run registers the owning class: the class is known
      afterwards exactly when it has a member, and no earlier entry moves. */
  function DefineMembers(reg: TypeMap, c: Class, pending: seq<(string, Value)>): (r: TypeMap)
    requires c.descriptor.EnumClass? && StillToDefine(c, pending)
    ensures r.Keys == if pending == [] then reg.Keys else reg.Keys + {c.Id()}
    ensures forall k :: k in reg ==> r[k] == reg[k]
    ensures pending != [] && c.Id() !in reg ==> r[c.Id()] == c.descriptor
    decreases |pending|
  {
    if pending == [] then reg else DefineMembers(Register(reg, c), c, pending[1..])
  }

  /** `pending` is what is left of the members of `c` once the earlier
      ones have been defined: a suffix of its declared members. */
  predicate StillToDefine(c: Class, pending: seq<(string, Value)>)
    requires c.descriptor.EnumClass?
  {
    var members := c.descriptor.members;
    |pending| <= |members| && pending == members[|members| - |pending|..]
  }

  /** Defining the enumeration `c`: its members are created in declaration
      order. The class is registered exactly when it has a member. */
  function Define(reg: TypeMap, c: Class): (r: TypeMap)
    requires c.descriptor.EnumClass?
    ensures r == if c.descriptor.members == [] then reg else Register(reg, c)
  {
    DefineMembersRegistersOnce(reg, c, c.descriptor.members);
    DefineMembers(reg, c, c.descriptor.members)
  }

  /** The first member registers the class and the others change nothing;
      an enumeration without members is never registered. */
  lemma {:induction false} DefineMembersRegistersOnce(reg: TypeMap, c: Class, pending: seq<(string, Value)>)
    requires c.descriptor.EnumClass? && StillToDefine(c, pending)
    ensures DefineMembers(reg, c, pending) == if pending == [] then reg else Register(reg, c)
    decreases |pending|
  {
    if pending != [] {
      DefineMembersRegistersOnce(Register(reg, c), c, pending[1..]);
      RegisterIdempotent(reg, c);
    }
  }

  /** `to_dict()` of a member: exactly the tag and the name. */
  function ToDict(m: Value): (r: map<string, Value>)
    requires m.EnumMember?
    ensures r.Keys == {TagKey, NameKey}
    ensures r[TagKey] == Str(m.typeId) && r[NameKey] == Str(m.name)
  {
    map[TagKey := Str(m.typeId), NameKey := Str(m.name)]
  }

  /** The underlying value of a member is never emitted. */
  lemma ValueNeverEmitted(m: Value, v: Value)
    requires m.EnumMember?
    ensures ToDict(m) == ToDict(m.(value := v))
  {
  }

  /** `from_dict`: `cls[obj['name']]`. A missing `name` entry is a
      `KeyError` on the mapping; a name that is not declared (or not a
      string) is a lookup failure on the enumeration. The tag entry is not
      consulted. */
  function FromDict(id: string, members: seq<(string, Value)>, o: map<string, Value>): (r: Outcome<Value>)
    ensures NameKey !in o ==> r == Err(MissingKey(NameKey))
    ensures NameKey in o && r.Err? ==> r.error == UnknownMember(id, o[NameKey])
    ensures r.Ok? <==>
              && NameKey in o && o[NameKey].Str?
              && exists i :: 0 <= i < |members| && members[i].0 == o[NameKey].s
    ensures r.Ok? ==>
              && r.value.EnumMember? && r.value.typeId == id
              && r.value.name == o[NameKey].s
              && (r.value.name, r.value.value) in members
  {
    if NameKey !in o then Err(MissingKey(NameKey))
    else
      match o[NameKey]
      case Str(name) =>
        (match Lookup(members, name)
         case Some(v) => Ok(EnumMember(id, name, v))
         case None => Err(UnknownMember(id, o[NameKey])))
      case _ => Err(UnknownMember(id, o[NameKey]))
  }

  /** Decoding an encoded member gives back the same declared member. */
  lemma EnumRoundTrip(id: string, members: seq<(string, Value)>, i: nat)
    requires UniqueNames(members)
    requires i < |members|
    ensures FromDict(id, members, ToDict(EnumMember(id, members[i].0, members[i].1)))
            == Ok(EnumMember(id, members[i].0, members[i].1))
  {
  }
}
