/** JSON values as the programs see them after `JSON.parse` / before
    `json.dumps`. The text codecs themselves (Python's `json.dumps`,
    JavaScript's `JSON.stringify` and `JSON.parse`) are library code; the
    modules take them as parameters and rely only on the contract below. */
module Json {
  import opened Wrappers
  import opened Strings

  datatype Json =
    | JNull
    | JBool(b: bool)
    | JNum(n: real)
    | JStr(s: string)
    | JArr(items: seq<Json>)
    | JObj(fields: seq<(string, Json)>)

  /** Property lookup on a parsed value; for an object with a repeated key
      the last occurrence wins, as `JSON.parse` builds it. */
  function Get(v: Json, key: string): Option<Json>
  {
    match v
    case JObj(fs) => Lookup(fs, key)
    case _ => None
  }

  function Lookup(fs: seq<(string, Json)>, key: string): (r: Option<Json>)
    ensures r.Some? <==> exists i :: 0 <= i < |fs| && fs[i].0 == key
    decreases |fs|
  {
    if fs == [] then None
    else if fs[|fs| - 1].0 == key then Some(fs[|fs| - 1].1)
    else Lookup(fs[..|fs| - 1], key)
  }

  /** `obj.key` when it is a string (`typeof obj.key === "string"`). */
  function GetString(v: Json, key: string): Option<string>
  {
    match Get(v, key)
    case Some(JStr(s)) => Some(s)
    case _ => None
  }

  /** JavaScript truthiness of a parsed value (`if (v)`). */
  predicate Truthy(v: Json)
  {
    match v
    case JNull => false
    case JBool(b) => b
    case JNum(n) => n != 0.0
    case JStr(s) => s != ""
    case _ => true
  }

  /** Truthiness of an optional property: `undefined` is falsy. */
  predicate TruthyField(v: Option<Json>)
  {
    v.Some? && Truthy(v.value)
  }

  /** The single-field object `{"key": "value"}`. */
  function StrObj(key: string, value: string): Json
  {
    JObj([(key, JStr(value))])
  }

  /** The codec contract: the serialised text is a single non-empty line
      (no raw newline; `json.dumps` and `JSON.stringify` escape them) without
      whitespace at either end, an object's text opens with `{`, and parsing
      the text gives the value back. */
  ghost predicate Codec(ser: Json -> string, parse: string -> Option<Json>)
  {
    forall v :: Serialised(ser(v)) && parse(ser(v)) == Some(v) && (v.JObj? ==> ser(v)[0] == '{')
  }

  predicate Serialised(t: string)
  {
    '\n' !in t && t != [] && !IsSpace(t[0]) && !IsSpace(t[|t| - 1])
  }

  lemma {:induction false} StrObjField(key: string, value: string)
    ensures GetString(StrObj(key, value), key) == Some(value)
  {
    assert StrObj(key, value).fields[..0] == [];
  }
}
