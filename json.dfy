/**
 * Just enough of JavaScript values to follow the property paths the views read
 * from a response: missing members read as `undefined` (`None`), optional
 * chaining (`a?.b`) stops at a missing or non-object value, and `||` tests truthiness.
 * Numbers are modelled as integers.
 */
module Json {
  import opened Wrappers

  datatype Json =
    | JNull
    | JBool(b: bool)
    | JNum(n: int)
    | JStr(s: string)
    | JArr(items: seq<Json>)
    | JObj(fields: map<string, Json>)

  /** `v?.key` */
  function Member(v: Option<Json>, key: string): (r: Option<Json>)
    ensures r.Some? <==> v.Some? && v.value.JObj? && key in v.value.fields
    ensures r.Some? ==> r.value == v.value.fields[key]
  {
    match v
    case Some(JObj(fields)) => if key in fields then Some(fields[key]) else None
    case _ => None
  }

  /** `v?.k0?.k1?...` */
  function Path(v: Option<Json>, keys: seq<string>): Option<Json>
    decreases |keys|
  {
    if keys == [] then v else Path(Member(v, keys[0]), keys[1..])
  }

  /** Truthiness: `undefined`, `null`, `false`, `0` and `""` are falsy. */
  predicate Truthy(v: Option<Json>)
  {
    match v
    case None => false
    case Some(JNull) => false
    case Some(JBool(b)) => b
    case Some(JNum(n)) => n != 0
    case Some(JStr(s)) => s != ""
    case Some(JArr(_)) => true
    case Some(JObj(_)) => true
  }

  /** Once a path step is missing, the rest of the path is missing too. */
  lemma {:induction false} PathFromMissing(keys: seq<string>)
    ensures Path(None, keys) == None
    decreases |keys|
  {
    if keys != [] {
      PathFromMissing(keys[1..]);
    }
  }
}
