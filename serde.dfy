/**
 * What serde's derived `Deserialize` accepts, for the shapes this layer
 * decodes: strings, `u32`, `Vec<T>`, structs and untagged enums. Each
 * decoder answers `None` exactly when serde would report a mismatch.
 */
module Serde {
  import opened Wrappers
  import opened Json

  /** Rust's `u32`. */
  type U32 = x: int | 0 <= x < 0x1_0000_0000

  /** A `String` field: only a JSON string is accepted. */
  function AsString(j: Json): (r: Option<string>)
    ensures r.Some? <==> j.JStr?
    ensures r.Some? ==> r.value == j.s
  {
    if j.JStr? then Some(j.s) else None
  }

  /** A `u32` field: a JSON integer in range (a JSON float such as 1.0 is refused). */
  function AsU32(j: Json): (r: Option<U32>)
    ensures r.Some? <==> j.JInt? && 0 <= j.i < 0x1_0000_0000
    ensures r.Some? ==> r.value == j.i
  {
    if j.JInt? && 0 <= j.i < 0x1_0000_0000 then Some(j.i as U32) else None
  }

  /**
   * The field values of a struct with the given field names, in declaration
   * order. A derived struct accepts an object holding every field (other keys
   * are ignored) or an array of exactly as many elements as it has fields.
   */
  function StructFields(j: Json, names: seq<string>): (r: Option<seq<Json>>)
    ensures r.Some? ==> |r.value| == |names|
    ensures j.JObj? ==> (r.Some? <==> forall k :: 0 <= k < |names| ==> names[k] in j.fields)
    ensures j.JObj? && r.Some? ==> forall k :: 0 <= k < |names| ==> r.value[k] == j.fields[names[k]]
    ensures j.JArr? ==> (r.Some? <==> |j.items| == |names|)
    ensures j.JArr? && r.Some? ==> r.value == j.items
    ensures !j.JObj? && !j.JArr? ==> r.None?
  {
    match j
    case JObj(m) =>
      if forall k :: 0 <= k < |names| ==> names[k] in m
      then Some(seq(|names|, k requires 0 <= k < |names| => m[names[k]]))
      else None
    case JArr(items) => if |items| == |names| then Some(items) else None
    case _ => None
  }

  /** Every element decoded, in order; `None` as soon as one element is refused. */
  function DecodeAll<T>(items: seq<Json>, decode: Json -> Option<T>): (r: Option<seq<T>>)
    ensures r.Some? <==> forall i :: 0 <= i < |items| ==> decode(items[i]).Some?
    ensures r.Some? ==> |r.value| == |items|
    ensures r.Some? ==> forall i :: 0 <= i < |items| ==> decode(items[i]) == Some(r.value[i])
  {
    if items == [] then Some([])
    else
      match decode(items[0])
      case None => None
      case Some(x) =>
        match DecodeAll(items[1..], decode)
        case None => None
        case Some(rest) => Some([x] + rest)
  }

  /** A `Vec<T>`: only a JSON array is accepted. */
  function SeqOf<T>(j: Json, decode: Json -> Option<T>): (r: Option<seq<T>>)
    ensures r.Some? ==> j.JArr? && r == DecodeAll(j.items, decode)
  {
    if j.JArr? then DecodeAll(j.items, decode) else None
  }

  /** A `Vec<String>` written by `StringArray` reads back as the same strings. */
  lemma StringArrayRoundTrip(ss: seq<string>)
    ensures SeqOf(StringArray(ss), AsString) == Some(ss)
  {
    var items := StringArray(ss).items;
    assert forall i :: 0 <= i < |items| ==> AsString(items[i]) == Some(ss[i]);
    var r := DecodeAll(items, AsString);
    assert r.Some?;
    assert r.value == ss;
  }
}
