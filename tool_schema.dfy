/**
 * The tool definition a tool hands to the completion service (`ToolDefinition`:
 * a name, a description and a JSON-schema parameter description), the JSON
 * values such a schema describes, and when a JSON value conforms to a schema.
 *
 * Only the part of JSON Schema the two tools use is modelled: objects with
 * properties and a required list, arrays with one item schema, strings with
 * an optional `enum`, and booleans. As in JSON Schema, an object may carry
 * members its schema does not name.
 */
module ToolSchema {
  import opened Wrappers

  datatype Json =
    | JString(str: string)
    | JBool(b: bool)
    | JArray(elems: seq<Json>)
    | JObject(members: seq<Member>)

  datatype Member = Member(key: string, value: Json)

  datatype Schema =
    | ObjectSchema(properties: seq<Property>, required: seq<string>)
    | ArraySchema(description: string, items: Schema)
    | StringSchema(description: string, enumValues: Option<seq<string>>)
    | BooleanSchema(description: string)

  datatype Property = Property(name: string, schema: Schema)

  datatype ToolDefinition = ToolDefinition(name: string, description: string, parameters: Schema)

  /** The value of the first member named `key`, if any. */
  function Field(members: seq<Member>, key: string): Option<Json>
  {
    if members == [] then None
    else if members[0].key == key then Some(members[0].value)
    else Field(members[1..], key)
  }

  /** The schema of the first property named `name`, if any. */
  function PropertySchema(properties: seq<Property>, name: string): Option<Schema>
  {
    if properties == [] then None
    else if properties[0].name == name then Some(properties[0].schema)
    else PropertySchema(properties[1..], name)
  }

  /** The schema an object schema gives to property `name`. */
  function Prop(s: Schema, name: string): Option<Schema>
  {
    if s.ObjectSchema? then PropertySchema(s.properties, name) else None
  }

  /** The required list of an object schema (empty for any other schema). */
  function Required(s: Schema): seq<string>
  {
    if s.ObjectSchema? then s.required else []
  }

  /** The enumeration a string schema restricts its values to, if any. */
  function EnumOf(s: Schema): Option<seq<string>>
  {
    if s.StringSchema? then s.enumValues else None
  }

  /** Whether JSON value `j` is an instance of `schema`. */
  predicate Conforms(schema: Schema, j: Json)
    decreases j
  {
    match schema
    case StringSchema(_, enumValues) =>
      j.JString? && (enumValues.Some? ==> j.str in enumValues.value)
    case BooleanSchema(_) =>
      j.JBool?
    case ArraySchema(_, items) =>
      j.JArray? && forall e <- j.elems :: Conforms(items, e)
    case ObjectSchema(properties, required) =>
      j.JObject? &&
      (forall k <- required :: Field(j.members, k).Some?) &&
      forall m <- j.members ::
        PropertySchema(properties, m.key).Some? ==> Conforms(PropertySchema(properties, m.key).value, m.value)
  }
}
