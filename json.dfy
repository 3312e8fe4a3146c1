/** The decoded JSON / Python values that flow through the import payload,
    the seed data and the notification peer. */
module Json {
  import opened Wrappers
  import opened Exceptions

  datatype Json =
    | JNull
    | JBool(b: bool)
    | JInt(i: int)
    | JStr(s: string)
    | JList(items: seq<Json>)
    | JObj(fields: map<string, Json>)

  /** Python truthiness (`if value:`): None, False, 0, '', [] and {} are false. */
  predicate Truthy(j: Json) {
    match j
    case JNull => false
    case JBool(b) => b
    case JInt(i) => i != 0
    case JStr(s) => s != ""
    case JList(items) => items != []
    case JObj(fields) => fields != map[]
  }

  /** `type(j).__name__` of a decoded JSON value. */
  function PyTypeName(j: Json): string {
    match j
    case JNull => "NoneType"
    case JBool(_) => "bool"
    case JInt(_) => "int"
    case JStr(_) => "str"
    case JList(_) => "list"
    case JObj(_) => "dict"
  }

  /** `for x in j`: a list yields its items, a string its characters and an
      object its keys; anything else is not iterable. An object's keys are
      strings, and no caller does anything with a string entry that depends
      on its text (it is rejected as "not a dictionary", or indexing it
      raises), so each key stands here as the empty string. */
  function Iterate(j: Json): (r: Result<seq<Json>, Exception>)
    ensures r.Ok? <==> j.JList? || j.JStr? || j.JObj?
    ensures j.JList? ==> r == Ok(j.items)
    ensures j.JStr? ==> r.Ok? && |r.value| == |j.s| && forall i :: 0 <= i < |j.s| ==> r.value[i] == JStr([j.s[i]])
    ensures j.JObj? ==> r.Ok? && |r.value| == |j.fields| && forall x :: x in r.value ==> x.JStr?
    ensures r.Err? ==> r.error == TypeError("'" + PyTypeName(j) + "' object is not iterable")
  {
    match j
    case JList(items) => Ok(items)
    case JStr(s) => Ok(Chars(s))
    case JObj(m) => Ok(Blanks(|m|))
    case _ => Err(TypeError("'" + PyTypeName(j) + "' object is not iterable"))
  }

  /** The one-character strings of `s`, in order. */
  function Chars(s: string): (r: seq<Json>)
    ensures |r| == |s| && forall i :: 0 <= i < |s| ==> r[i] == JStr([s[i]])
  {
    if s == [] then [] else [JStr([s[0]])] + Chars(s[1..])
  }

  /** `n` empty strings. */
  function Blanks(n: nat): (r: seq<Json>)
    ensures |r| == n && forall x :: x in r ==> x == JStr("")
  {
    if n == 0 then [] else [JStr("")] + Blanks(n - 1)
  }
}
