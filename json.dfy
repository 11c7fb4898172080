/**
 * Parsed JSON values, as `response.json()` hands them to the route code, and
 * the JavaScript operations the code applies to them: property access
 * (`data.key`), truthiness (`x || y`) and conversion to a string.
 */
module Json {

  import opened Wrappers
  import Js

  datatype Json =
    | JNull
    | JBool(b: bool)
    | JNum(n: int)
    | JStr(s: string)
    | JArr(elems: seq<Json>)
    | JObj(fields: seq<(string, Json)>)

  /** The outcome of `data.key`: a value, `undefined` (None), or a thrown
      TypeError when `data` is null. */
  datatype Access = Value(v: Option<Json>) | Throws

  /** The last binding of `key` among `fields`; duplicated keys keep the
      last value, as `JSON.parse` does. */
  function Lookup(fields: seq<(string, Json)>, key: string): (r: Option<Json>)
    ensures r.Some? <==> exists i :: 0 <= i < |fields| && fields[i].0 == key
    ensures r.Some? ==> exists i :: 0 <= i < |fields| && fields[i] == (key, r.value)
                                 && forall j :: i < j < |fields| ==> fields[j].0 != key
    decreases |fields|
  {
    if fields == [] then None
    else if fields[|fields| - 1].0 == key then Some(fields[|fields| - 1].1)
    else Lookup(fields[..|fields| - 1], key)
  }

  /** `data.key`: a member of an object; `undefined` on the other non-null
      values; a TypeError on null. */
  function Member(data: Json, key: string): (r: Access)
    ensures r.Throws? <==> data.JNull?
    ensures !data.JObj? && !data.JNull? ==> r == Value(None)
  {
    match data
    case JNull => Throws
    case JObj(fields) => Value(Lookup(fields, key))
    case _ => Value(None)
  }

  /** JavaScript truthiness of a value that may be undefined. */
  predicate Truthy(v: Option<Json>) {
    match v
    case None => false
    case Some(JNull) => false
    case Some(JBool(b)) => b
    case Some(JNum(n)) => n != 0
    case Some(JStr(s)) => s != ""
    case Some(_) => true
  }

  /** `String(v)`: an array joins its elements' texts with ",", where a null
      element gives "" (`Array.prototype.join`); a plain object gives
      "[object Object]". */
  function ToText(j: Json): (r: string)
    ensures j.JStr? ==> r == j.s
    ensures j.JNull? ==> r == "null"
    ensures j.JBool? ==> r == if j.b then "true" else "false"
    ensures j.JObj? ==> r == "[object Object]"
    ensures j == JArr([]) ==> r == ""
    decreases j
  {
    match j
    case JNull => "null"
    case JBool(b) => if b then "true" else "false"
    case JNum(n) => Js.IntToString(n)
    case JStr(s) => s
    case JArr(elems) =>
      Js.Join(seq(|elems|, i requires 0 <= i < |elems| => if elems[i].JNull? then "" else ToText(elems[i])), ",")
    case JObj(_) => "[object Object]"
  }

  /** An array of strings reads as those strings joined with commas, so
      without commas inside them they split back into the elements. */
  lemma StringArrayText(ss: seq<string>)
    requires forall i :: 0 <= i < |ss| ==> ',' !in ss[i]
    ensures var text := ToText(JArr(seq(|ss|, i requires 0 <= i < |ss| => JStr(ss[i]))));
            text == Js.Join(ss, ",") && Js.Split(text, ',') == (if ss == [] then [""] else ss)
  {
    var elems := seq(|ss|, i requires 0 <= i < |ss| => JStr(ss[i]));
    assert seq(|elems|, i requires 0 <= i < |elems| => if elems[i].JNull? then "" else ToText(elems[i])) == ss;
    if ss != [] {
      Js.SplitJoin(ss, ',');
    }
  }
}
