/**
 * JSON schemas for structured extraction, as the schema dictionaries of the
 * system describe them: an object type with typed properties and a list of
 * required property names. Property descriptions are not part of the model.
 */
module Schemas {
  import opened Text
  import opened JsonValue

  /** The type of one schema property. */
  datatype PropType =
    | StringProp
    | BooleanProp
    | StringArray
    /** An object whose listed fields are strings. */
    | ObjectProp(fields: seq<string>)
    /** An array of such objects. */
    | ObjectArray(fields: seq<string>)

  datatype Schema = Schema(properties: map<string, PropType>, required: seq<string>)

  /** Every required name is one of the properties. */
  predicate WellFormed(s: Schema)
  {
    forall i :: 0 <= i < |s.required| ==> s.required[i] in s.properties
  }

  function FieldsJson(fields: seq<string>): (r: map<string, Json>)
    ensures r.Keys == set i | 0 <= i < |fields| :: fields[i]
    decreases |fields|
  {
    if fields == [] then map[]
    else FieldsJson(fields[..|fields| - 1])[fields[|fields| - 1] := JObj(map["type" := JStr("string")])]
  }

  function PropJson(p: PropType): Json
  {
    match p
    case StringProp => JObj(map["type" := JStr("string")])
    case BooleanProp => JObj(map["type" := JStr("boolean")])
    case StringArray => JObj(map["type" := JStr("array"), "items" := JObj(map["type" := JStr("string")])])
    case ObjectProp(fields) => JObj(map["type" := JStr("object"), "properties" := JObj(FieldsJson(fields))])
    case ObjectArray(fields) =>
      JObj(map["type" := JStr("array"),
               "items" := JObj(map["type" := JStr("object"), "properties" := JObj(FieldsJson(fields))])])
  }

  /**
   * The schema as the dictionary handed to the extraction service: never an
   * empty (falsy) dictionary, with the same property names and required list.
   */
  function ToJson(s: Schema): (r: Json)
    ensures r.JObj? && Truthy(r)
    ensures "type" in r.fields && r.fields["type"] == JStr("object")
    ensures "properties" in r.fields && r.fields["properties"].JObj? && r.fields["properties"].fields.Keys == s.properties.Keys
    ensures "required" in r.fields && r.fields["required"] == StrArray(s.required)
  {
    var props := map k | k in s.properties :: PropJson(s.properties[k]);
    var fields := map["type" := JStr("object"), "properties" := JObj(props), "required" := StrArray(s.required)];
    assert "type" in fields;
    JObj(fields)
  }

  /** `any(term in s for term in terms)` */
  function ContainsAny(s: string, terms: seq<string>): (r: bool)
    ensures r <==> exists i :: 0 <= i < |terms| && Contains(s, terms[i])
    decreases |terms|
  {
    if terms == [] then false
    else Contains(s, terms[0]) || ContainsAny(s, terms[1..])
  }

  /** Lowercasing is idempotent, and lowercasing an uppercased text is lowercasing the text. */
  lemma LowerIdempotent(s: string)
    ensures Lower(Lower(s)) == Lower(s)
    ensures Lower(Upper(s)) == Lower(s)
  {
  }
}
