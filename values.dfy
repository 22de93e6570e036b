/** The opaque values that flow through the binding layer. */
module Values {

  /**
   * A JavaScript value as the connectors see it: props, search-state slices,
   * hits, metadata and search parameters are all built from these.
   * `JNaN` is the number a failed `parseInt` yields.
   */
  datatype Json =
    | JNull
    | JBool(b: bool)
    | JNum(n: int)
    | JNaN
    | JStr(s: string)
    | JArr(elems: seq<Json>)
    | JObj(fields: map<string, Json>)

  /** The search UI state (`widgets` in the store): one entry per widget key. */
  type SearchState = map<string, Json>

  /** The empty object `{}`. */
  const EmptyObject: Json := JObj(map[])
}
