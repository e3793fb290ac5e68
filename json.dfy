/** The JSON objects exchanged between the form, the proxy route and the
    back end, and the HTTP responses that carry them. Every object the system
    builds or reads has only string and null properties, so a flat map
    suffices. */
module Json {
  import opened Wrappers

  datatype JValue = JNull | JStr(s: string)

  type JObject = map<string, JValue>

  /** An HTTP response: status code and JSON body. */
  datatype Response = Response(status: nat, body: JObject)

  /** The string held by property `key`, or None when the property is
      missing (`undefined`) or null. */
  function StringField(o: JObject, key: string): (r: Option<string>)
    ensures r.Some? <==> key in o && o[key].JStr?
    ensures r.Some? ==> o[key] == JStr(r.value)
  {
    if key in o && o[key].JStr? then Some(o[key].s) else None
  }

  /** JavaScript truthiness of `o[key]` (also of `o?.[key]`): a missing
      property, null and the empty string are falsy. */
  predicate Truthy(o: JObject, key: string)
  {
    key in o && o[key].JStr? && o[key].s != ""
  }
}
