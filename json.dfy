/** JSON documents as `httpx`'s `Response.json()` decodes them. */
module JsonValue {

  /** A decoded JSON value; objects compare like Python dicts, ignoring key order. */
  datatype Json =
    | JNull
    | JBool(b: bool)
    | JInt(i: int)
    | JStr(s: string)
    | JArr(items: seq<Json>)
    | JObj(fields: map<string, Json>)

  /** Python's `key in j` for an object body. */
  predicate HasKey(j: Json, key: string) {
    j.JObj? && key in j.fields
  }

  /** `"error" in j and j["error"] == tag`: a CouchDB error body with that tag. */
  predicate ErrorIs(j: Json, tag: string) {
    HasKey(j, "error") && j.fields["error"] == JStr(tag)
  }
}
