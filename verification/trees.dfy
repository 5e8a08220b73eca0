/** The two trees the serialisation layer converts between: the JSON tree
    the underlying parser and printer work on, and the in-memory value
    tree that adds tagged data-class instances and enumeration members. */
module Trees {
  import opened Results

  /** The reserved key of every tagged mapping; it holds the type identifier. */
  const TagKey: string := "_cls_type_"

  /** The one other key of an encoded enumeration member. */
  const NameKey: string := "name"

  /** A JSON tree. Numbers are integers only. */
  datatype Json =
    | JNull
    | JBool(b: bool)
    | JInt(i: int)
    | JString(s: string)
    | JArray(items: seq<Json>)
    | JObject(members: map<string, Json>)

  /** An in-memory value. `Instance` is an object of a data class: its class
      identifier and its fields (the instance dictionary, tag included).
      `EnumMember` is a declared member of an enumeration: the owning type,
      the member's name and its underlying value. `Other` is any object with
      neither a JSON form nor the serialisation contract. */
  datatype Value =
    | Null
    | Bool(b: bool)
    | Int(i: int)
    | Str(s: string)
    | List(items: seq<Value>)
    | Dict(entries: map<string, Value>)
    | Instance(typeId: string, fields: map<string, Value>)
    | EnumMember(typeId: string, name: string, value: Value)
    | Other(kind: string)

  /** What encoding, decoding or construction can raise. */
  datatype Error =
    | UnknownType(typeId: string)              // tag with no registry entry
    | MissingKey(key: string)                  // a mapping lookup of an absent key
    | UnknownMember(typeId: string, name: Value) // enumeration has no member of that name
    | UnexpectedArguments(names: set<string>)  // keywords the constructor does not declare
    | MissingArguments(names: set<string>)     // required parameters no keyword supplied
    | NotSerializable(kind: string)            // value with no JSON form and no contract
    | Raised(kind: string)                     // any other exception, by its class name

  type Outcome<T> = Result<T, Error>

  /** A mapping the decoder hook dispatches on: it has the reserved key and
      the value there is a string. */
  predicate Tagged(o: map<string, Value>) {
    TagKey in o && o[TagKey].Str?
  }
}
