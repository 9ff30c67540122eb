/** JSON values, and what is taken for granted about the runtime's JSON text. */
module Json {
  import opened Base

  /** A JSON value. Numbers are the integers the wire formats carry (counts, indices). */
  datatype Json =
    | Null
    | Bool(b: bool)
    | Num(n: int)
    | Str(s: string)
    | Arr(items: seq<Json>)
    | Obj(fields: map<string, Json>)

  /** A property of a value, if the value is there, is an object and has it. */
  function Prop(value: Option<Json>, key: string): Option<Json> {
    if value.Some? && value.value.Obj? && key in value.value.fields then Some(value.value.fields[key]) else None
  }

  function StrProp(value: Option<Json>, key: string): Option<string> {
    var found := Prop(value, key);
    if found.Some? && found.value.Str? then Some(found.value.s) else None
  }

  function NumProp(value: Option<Json>, key: string): Option<int> {
    var found := Prop(value, key);
    if found.Some? && found.value.Num? then Some(found.value.n) else None
  }

  /** `JSON.stringify`, and `JSON.parse` with `None` for a throw. */
  datatype Codec = Codec(stringify: Json -> string, parse: string -> Option<Json>)

  predicate NoBreaks(s: string) {
    '\r' !in s && '\n' !in s
  }

  /** The text of an object stands between braces on one line. */
  predicate ObjectText(s: string) {
    |s| >= 2 && s[0] == '{' && s[|s| - 1] == '}' && NoBreaks(s)
  }

  /** All that is assumed of the runtime: parsing undoes printing, and objects print as object text. */
  ghost predicate Lawful(c: Codec) {
    forall j: Json :: j.Obj? ==> ObjectText(c.stringify(j)) && c.parse(c.stringify(j)) == Some(j)
  }
}
