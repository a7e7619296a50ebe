/**
 * JSON values as the modelled code builds them, and the primitives it applies
 * to them. `JSON.stringify` and SHA-256 are left uninterpreted: the model
 * only relies on their being functions (same input, same output).
 */
module Json {
  import opened Wrappers
  import opened Seqs

  /** Objects keep their keys in insertion order, as `JSON.stringify` writes them. */
  datatype JValue =
    | JNull
    | JBool(b: bool)
    | JNumber(n: int)
    | JString(s: string)
    | JArray(items: seq<JValue>)
    | JObject(fields: seq<(string, JValue)>)

  /**
   * `sha256` is `crypto.createHash('sha256').update(x).digest('hex')`,
   * `stringify` is `JSON.stringify(v)` and `stringifyIndented` is `JSON.stringify(v, null, 2)`.
   */
  datatype Primitives = Primitives(
    sha256: string -> string,
    stringify: JValue -> string,
    stringifyIndented: JValue -> string)

  function JStr(s: string): JValue {
    JString(s)
  }

  /** An array of strings. */
  function JStrings(s: seq<string>): (v: JValue)
    ensures v.JArray? && |v.items| == |s|
  {
    JArray(MapSeq(JStr, s))
  }

  /** A value that may be `null`. */
  function JNullable(o: Option<string>): (v: JValue)
    ensures v == JNull <==> o.None?
  {
    if o.Some? then JString(o.value) else JNull
  }

  /** A property whose value may be `undefined`: `JSON.stringify` drops it. */
  function OptionalField(key: string, o: Option<JValue>): (f: seq<(string, JValue)>)
    ensures o.None? ==> f == []
    ensures o.Some? ==> f == [(key, o.value)]
  {
    if o.Some? then [(key, o.value)] else []
  }

  /** The keys of an object, in order. */
  function Keys(fields: seq<(string, JValue)>): (ks: seq<string>)
    ensures |ks| == |fields|
    ensures forall i :: 0 <= i < |fields| ==> ks[i] == fields[i].0
  {
    if fields == [] then [] else [fields[0].0] + Keys(fields[1..])
  }
}
