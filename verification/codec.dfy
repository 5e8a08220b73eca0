/** The encoder hook (`DefaultJSONEncoder.default`), the decoder hook
    (`DefaultJSONDecoder.as_json_serializable`), and the two tree walks the
    JSON library performs around them: encoding applies the hook to every
    value without a JSON form; decoding applies the hook to every object
    after its members have been decoded, innermost first.

    Python reports the first failure in document order. Lists keep that
    order here; objects are maps without key order, so when several
    members of one object fail, which of their errors is reported is left
    unspecified: the object walks are ghost functions that pick one failing
    member. */
module Codec {
  import opened Results
  import opened Trees
  import opened Registry
  import DataContract
  import EnumContract

  /** The encoder hook, called on a value the JSON printer cannot print:
      a contract instance becomes its `to_dict()`, anything else is a
      `TypeError`. */
  function EncoderDefault(o: Value): (r: Outcome<map<string, Value>>)
    requires o.Instance? || o.EnumMember? || o.Other?
    ensures r.Ok? <==> !o.Other?
    ensures o.Instance? ==> r.value == o.fields
    ensures o.EnumMember? ==> r.value == EnumContract.ToDict(o)
    ensures o.Other? ==> r == Err(NotSerializable(o.kind))
  {
    match o
    case Instance(_, _) => Ok(DataContract.ToDict(o))
    case EnumMember(_, _, _) => Ok(EnumContract.ToDict(o))
    case Other(kind) => Err(NotSerializable(kind))
  }

  /** Values the encoder can print: no part lacks both a JSON form and the
      contract. */
  ghost predicate Encodable(v: Value)
    decreases v
  {
    match v
    case List(items) => forall i :: 0 <= i < |items| ==> Encodable(items[i])
    case Dict(m) => forall k :: k in m ==> Encodable(m[k])
    case Instance(_, fields) => forall k :: k in fields ==> Encodable(fields[k])
    case Other(_) => false
    case _ => true
  }

  /** The entries printed for a mapping: a plain dictionary's own, or the
      fields the hook returns for a data-class instance. */
  function Entries(v: Value): (m: map<string, Value>)
    requires v.Dict? || v.Instance?
    ensures v.Dict? ==> m == v.entries
    ensures v.Instance? ==> m == DataContract.ToDict(v)
  {
    if v.Dict? then v.entries else DataContract.ToDict(v)
  }

  /** Printing a value tree with the encoder hook. Printing fails exactly
      on values with an unsupported part, and only with the hook's
      `TypeError`; the shape of the output follows the value. */
  ghost function Encode(v: Value): (r: Outcome<Json>)
    ensures r.Ok? <==> Encodable(v)
    ensures r.Err? ==> r.error.NotSerializable?
    ensures r.Ok? && v.List? ==> r.value.JArray? && |r.value.items| == |v.items|
    ensures r.Ok? && (v.Dict? || v.Instance?) ==> r.value.JObject? && r.value.members.Keys == Entries(v).Keys
    ensures r.Ok? && v.EnumMember? ==> r.value.JObject? && r.value.members.Keys == {TagKey, NameKey}
    decreases v, 1
  {
    match v
    case Null => Ok(JNull)
    case Bool(b) => Ok(JBool(b))
    case Int(i) => Ok(JInt(i))
    case Str(s) => Ok(JString(s))
    case List(items) =>
      var outs := seq(|items|, i requires 0 <= i < |items| => Encode(items[i]));
      assert forall i :: 0 <= i < |items| ==> outs[i] == Encode(items[i]);
      var out :- Collect(outs);
      Ok(JArray(out))
    case Dict(_) => EncodeEntries(v)
    case Instance(_, _) => EncodeEntries(v)
    case EnumMember(id, name, _) => Ok(JObject(map[TagKey := JString(id), NameKey := JString(name)]))
    case Other(kind) => Err(NotSerializable(kind))
  }

  /** Printing the entries of a mapping: every entry's output under its
      key, or the error of some entry that fails. */
  ghost function EncodeEntries(v: Value): (r: Outcome<Json>)
    requires v.Dict? || v.Instance?
    ensures r.Ok? <==> forall k :: k in Entries(v) ==> Encode(Entries(v)[k]).Ok?
    ensures r.Ok? ==> r.value.JObject? && r.value.members.Keys == Entries(v).Keys
    ensures r.Ok? ==> forall k :: k in Entries(v) ==> Encode(Entries(v)[k]) == Ok(r.value.members[k])
    ensures r.Err? ==> exists k :: k in Entries(v) && Encode(Entries(v)[k]) == Err(r.error)
    decreases v, 0
  {
    var m := Entries(v);
    if forall k :: k in m ==> Encode(m[k]).Ok? then
      Ok(JObject(map k | k in m :: Encode(m[k]).value))
    else
      var k :| k in m && Encode(m[k]).Err?;
      Err(Encode(m[k]).error)
  }

  /** A value without a JSON form is printed as whatever its hook result
      prints as, and fails with the hook's error. */
  lemma EncodeAppliesDefault(v: Value)
    requires v.Instance? || v.EnumMember? || v.Other?
    ensures EncoderDefault(v).Ok? ==> Encode(v) == Encode(Dict(EncoderDefault(v).value))
    ensures EncoderDefault(v).Err? ==> Encode(v) == Err(EncoderDefault(v).error)
  {
    if v.EnumMember? {
      var d := EncoderDefault(v).value;
      assert Encode(d[TagKey]) == Ok(JString(v.typeId));
      assert Encode(d[NameKey]) == Ok(JString(v.name));
      var e := EncodeEntries(Dict(d));
      assert e.Ok?;
      assert e.value.members == Encode(v).value.members;
    }
  }

  /** Every encoded contract value is an object whose reserved key holds
      its type identifier as a string; an enumeration member has exactly
      that key and its name. */
  lemma EncodedFormIsTagged(v: Value)
    requires v.Instance? || v.EnumMember?
    requires v.Instance? ==> Tagged(v.fields) && v.fields[TagKey].s == v.typeId
    requires Encode(v).Ok?
    ensures Encode(v).value.JObject?
    ensures TagKey in Encode(v).value.members
    ensures Encode(v).value.members[TagKey] == JString(v.typeId)
    ensures v.EnumMember? ==>
              Encode(v).value.members == map[TagKey := JString(v.typeId), NameKey := JString(v.name)]
  {
    if v.Instance? {
      var e := EncodeEntries(v);
      assert Encode(v) == e;
      assert Entries(v)[TagKey] == Str(v.typeId);
      assert Encode(Entries(v)[TagKey]) == Ok(e.value.members[TagKey]);
    } else {
      assert Encode(v) == Ok(JObject(map[TagKey := JString(v.typeId), NameKey := JString(v.name)]));
    }
  }

  /** The decoder hook, called on every decoded object. A mapping whose tag
      is a string is rebuilt by the `from_dict` of the class registered
      under it; any other mapping is returned unchanged. */
  function ObjectHook(reg: TypeMap, o: map<string, Value>): (r: Outcome<Value>)
    ensures !Tagged(o) ==> r == Ok(Dict(o))
    ensures Tagged(o) && o[TagKey].s !in reg ==> r == Err(UnknownType(o[TagKey].s))
    ensures Tagged(o) && o[TagKey].s in reg && reg[o[TagKey].s].DataClass? ==>
              r == DataContract.FromDict(o[TagKey].s, reg[o[TagKey].s], o)
    ensures Tagged(o) && o[TagKey].s in reg && reg[o[TagKey].s].EnumClass? ==>
              r == EnumContract.FromDict(o[TagKey].s, reg[o[TagKey].s].members, o)
    ensures r.Ok? && Tagged(o) ==> (r.value.Instance? || r.value.EnumMember?) && r.value.typeId == o[TagKey].s
  {
    if TagKey in o && o[TagKey].Str? then
      var id := o[TagKey].s;
      var d :- Resolve(reg, id);
      match d
      case DataClass(_, _, _) => DataContract.FromDict(id, d, o)
      case EnumClass(members) => EnumContract.FromDict(id, members, o)
    else
      Ok(Dict(o))
  }

  /** Parsing a JSON tree with the decoder hook. Arrays give lists of the
      same length; every object goes through the hook, so a dictionary in
      the result is never tagged, and a rebuilt instance or member is of
      the class the object's tag names. */
  ghost function Decode(reg: TypeMap, j: Json): (r: Outcome<Value>)
    ensures r.Ok? && j.JArray? ==> r.value.List? && |r.value.items| == |j.items|
    ensures r.Ok? && r.value.Str? ==> j.JString? && j.s == r.value.s
    ensures r.Ok? && r.value.Dict? ==>
              j.JObject? && r.value.entries.Keys == j.members.Keys && !Tagged(r.value.entries)
    ensures r.Ok? && (r.value.Instance? || r.value.EnumMember?) ==>
              && j.JObject? && TagKey in j.members
              && j.members[TagKey].JString? && j.members[TagKey].s == r.value.typeId
    decreases j, 1
  {
    match j
    case JNull => Ok(Null)
    case JBool(b) => Ok(Bool(b))
    case JInt(i) => Ok(Int(i))
    case JString(s) => Ok(Str(s))
    case JArray(items) =>
      var outs := seq(|items|, i requires 0 <= i < |items| => Decode(reg, items[i]));
      assert forall i :: 0 <= i < |items| ==> outs[i] == Decode(reg, items[i]);
      var out :- Collect(outs);
      Ok(List(out))
    case JObject(_) =>
      var o :- DecodeMembers(reg, j);
      ObjectHook(reg, o)
  }

  /** Parsing the members of an object, before the hook sees it: every
      member's value under its key, or the error of some member that
      fails. */
  ghost function DecodeMembers(reg: TypeMap, j: Json): (r: Outcome<map<string, Value>>)
    requires j.JObject?
    ensures r.Ok? <==> forall k :: k in j.members ==> Decode(reg, j.members[k]).Ok?
    ensures r.Ok? ==> r.value.Keys == j.members.Keys
    ensures r.Ok? ==> forall k :: k in j.members ==> Decode(reg, j.members[k]) == Ok(r.value[k])
    ensures r.Err? ==> exists k :: k in j.members && Decode(reg, j.members[k]) == Err(r.error)
    decreases j, 0
  {
    var m := j.members;
    if forall k :: k in m ==> Decode(reg, m[k]).Ok? then
      Ok(map k | k in m :: Decode(reg, m[k]).value)
    else
      var k :| k in m && Decode(reg, m[k]).Err?;
      Err(Decode(reg, m[k]).error)
  }

  /** An object whose tag names no registered class fails to decode with
      that identifier, once its members decode; nothing is returned for
      it, so no partly rebuilt tree either. */
  lemma DecodeUnknownTag(reg: TypeMap, m: map<string, Json>, id: string)
    requires TagKey in m && m[TagKey] == JString(id) && id !in reg
    requires forall k :: k in m ==> Decode(reg, m[k]).Ok?
    ensures Decode(reg, JObject(m)) == Err(UnknownType(id))
  {
  }

  /** The value a JSON tree denotes when no hook intervenes. */
  function Plain(j: Json): Value
    decreases j
  {
    match j
    case JNull => Null
    case JBool(b) => Bool(b)
    case JInt(i) => Int(i)
    case JString(s) => Str(s)
    case JArray(items) => List(seq(|items|, i requires 0 <= i < |items| => Plain(items[i])))
    case JObject(m) => Dict(map k | k in m :: Plain(m[k]))
  }

  /** JSON trees with no object whose tag member is a string. */
  ghost predicate Untagged(j: Json)
    decreases j
  {
    match j
    case JArray(items) => forall i :: 0 <= i < |items| ==> Untagged(items[i])
    case JObject(m) =>
      && (forall k :: k in m ==> Untagged(m[k]))
      && !(TagKey in m && m[TagKey].JString?)
    case _ => true
  }

  /** Untagged JSON decodes to plain data, whatever the registry holds. */
  lemma {:induction false} DecodeUntagged(reg: TypeMap, j: Json)
    requires Untagged(j)
    ensures Decode(reg, j) == Ok(Plain(j))
    decreases j
  {
    match j
    case JArray(items) =>
      forall i | 0 <= i < |items| ensures Decode(reg, items[i]) == Ok(Plain(items[i])) {
        DecodeUntagged(reg, items[i]);
      }
      assert Decode(reg, j).value == Plain(j);
    case JObject(m) =>
      forall k | k in m ensures Decode(reg, m[k]) == Ok(Plain(m[k])) {
        DecodeUntagged(reg, m[k]);
      }
      var o := DecodeMembers(reg, j).value;
      assert o == map k | k in m :: Plain(m[k]);
      assert !Tagged(o) by {
        if TagKey in o {
          assert !m[TagKey].JString?;
          assert o[TagKey] == Plain(m[TagKey]);
        }
      }
    case _ =>
  }

  /** Plain data prints back as the JSON it came from. */
  lemma {:induction false} EncodePlain(j: Json)
    ensures Encode(Plain(j)) == Ok(j)
    decreases j
  {
    match j
    case JArray(items) =>
      var items' := Plain(j).items;
      forall i | 0 <= i < |items| ensures Encode(items'[i]) == Ok(items[i]) {
        EncodePlain(items[i]);
      }
      assert forall i :: 0 <= i < |items'| ==> Encode(items'[i]).Ok?;
      var e := Encode(Plain(j));
      assert e.Ok? && e.value.JArray?;
      assert e.value.items == items;
    case JObject(m) =>
      var m' := Plain(j).entries;
      forall k | k in m ensures Encode(m'[k]) == Ok(m[k]) {
        EncodePlain(m[k]);
      }
      assert forall k :: k in m' ==> Encode(m'[k]).Ok?;
      var e := EncodeEntries(Plain(j));
      assert e.Ok? && e.value.JObject?;
      assert e.value.members == m;
      assert Encode(Plain(j)) == e;
    case _ =>
  }
}
