/**
 * The decoded JSON tree (`serde_json::Value`). Objects are maps, as
 * `serde_json::Map` is: a key occurs at most once and the order of keys is
 * not part of the value.
 */
module Json {
  import opened Wrappers

  /**
   * An IEEE-754 single-precision value (`f32`), kept as its bit pattern.
   * The adaptor layer only copies these values; it never computes with them.
   */
  datatype Float = Float(bits: bv32) {
    /** Neither an infinity nor a NaN: the exponent field is not all ones. */
    predicate IsFinite() {
      (bits >> 23) & 0xFF != 0xFF
    }
  }

  datatype Json =
    | JNull
    | JBool(b: bool)
    | JInt(i: int)
    | JFloat(f: Float)
    | JStr(s: string)
    | JArr(items: seq<Json>)
    | JObj(fields: map<string, Json>)

  /**
   * The JSON value of an `f32`: serde_json has no representation for an
   * infinity or a NaN and turns those into `null`.
   */
  function FromFloat(f: Float): (r: Json)
    ensures r.JNull? <==> !f.IsFinite()
    ensures !r.JNull? ==> r == JFloat(f)
  {
    if f.IsFinite() then JFloat(f) else JNull
  }

  /** The JSON array of a `Vec<String>`, elements in order. */
  function StringArray(ss: seq<string>): (r: Json)
    ensures r.JArr? && |r.items| == |ss|
  {
    JArr(seq(|ss|, i requires 0 <= i < |ss| => JStr(ss[i])))
  }

  /** `value.get(key)` on an object; `None` on a missing key or a non-object. */
  function Get(j: Json, key: string): Option<Json> {
    if j.JObj? && key in j.fields then Some(j.fields[key]) else None
  }
}
