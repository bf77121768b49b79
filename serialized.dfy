/** The JSON values a serialized configuration is made of. `configuration: unknown` in the saved
    configuration file is a `Json`; a handler reads back what it wrote. */
module Serialized {
  import opened Outcome

  datatype Json =
    | JBool(b: bool)
    | JString(s: string)
    | JObject(fields: map<string, Json>)

  const EmptyObject: Json := JObject(map[])

  const MalformedMessage := "The serialized configuration does not have the expected shape"

  /** `obj[key]` when `obj` is an object and `key` is a string property of it. */
  function GetString(obj: Json, key: string): (r: Result<string>)
    ensures r.Ok? <==> obj.JObject? && key in obj.fields && obj.fields[key].JString?
    ensures r.Ok? ==> r.value == obj.fields[key].s
  {
    if obj.JObject? && key in obj.fields && obj.fields[key].JString? then
      Ok(obj.fields[key].s)
    else
      Err(MalformedMessage)
  }

  /** `obj[key]` when `obj` is an object and `key` is a boolean property of it. */
  function GetBool(obj: Json, key: string): (r: Result<bool>)
    ensures r.Ok? <==> obj.JObject? && key in obj.fields && obj.fields[key].JBool?
    ensures r.Ok? ==> r.value == obj.fields[key].b
  {
    if obj.JObject? && key in obj.fields && obj.fields[key].JBool? then
      Ok(obj.fields[key].b)
    else
      Err(MalformedMessage)
  }

  /** `obj[key]` when `obj` is an object holding `key`. */
  function GetField(obj: Json, key: string): (r: Result<Json>)
    ensures r.Ok? <==> obj.JObject? && key in obj.fields
    ensures r.Ok? ==> r.value == obj.fields[key]
  {
    if obj.JObject? && key in obj.fields then Ok(obj.fields[key]) else Err(MalformedMessage)
  }
}
