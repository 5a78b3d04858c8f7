/**
 * A parsed JSON value, as far as the request validators of the API handlers
 * look into it. `JSON.parse` failing is modelled by the handlers as an absent
 * value.
 */
module JsonValues {
  datatype Json =
    | JString(s: string)
    | JArray(items: seq<Json>)
    | JObject(fields: map<string, Json>)
    | JOther

  /** The field `key` of an object, when it is a string. */
  predicate HasString(o: map<string, Json>, key: string) {
    key in o && o[key].JString?
  }
}
